/**
 * The ASCII STL vertex extractor: a command-line tool that reads an ASCII
 * STL file line by line and writes the three coordinates of every "vertex"
 * line as a bracketed triple, one triangle (three vertices) per output line.
 */
module StlParser {
  import opened Common

  /** What the tool writes: literal text, or a coordinate as the two strings it hands to atof. */
  datatype Piece = Text(text: string) | Number(coeff: string, exp: string)

  /** How a run ends: an early exit with the message it prints, or the output and the final counts. */
  datatype Outcome =
    | Failure(message: string)
    | Finished(output: seq<Piece>, vertexCount: int, triangleCount: int)

  /** The loop's counters: vertex_index, vertex_count, triangle_count and element_index. */
  datatype Counters = Counters(vertexIndex: int, vertexCount: int, triangleCount: int, elementIndex: int)

  const Start := Counters(0, 0, 0, 0)

  /** The tag that marks a line holding a vertex. */
  const Key := "vertex"

  const NotEnoughArguments := "Not enough arguments, please use ./AppSTLParser [path/filename_in] [path/filename_out]"
  const TooManyArguments := "Too many arguments, please use ./AppSTLParser [path/filename_in] [path/filename_out]"
  const WrongFiletype := "Incorrect filetype, application for ASCII STL files only"
  const InputNotOpened := "Failed to open input file, please check filename"
  const OutputNotOpened := "Failed to open output file"

  // ---------------------------------------------------------------------
  // Searching strings
  // ---------------------------------------------------------------------

  /** `pat` occurs in `s` starting at position j. */
  predicate OccursAt(s: string, pat: string, j: nat)
  {
    j + |pat| <= |s| && s[j..j + |pat|] == pat
  }

  /** std::string::find(pat, from): the first position at or after `from` where `pat` occurs. */
  function Find(s: string, pat: string, from: nat): (r: Option<nat>)
    decreases |s| - from
  {
    if from + |pat| > |s| then None
    else if s[from..from + |pat|] == pat then Some(from)
    else Find(s, pat, from + 1)
  }

  /** Find returns an occurrence with none before it, and finds nothing only when there is none. */
  lemma {:induction false} FindIsFirst(s: string, pat: string, from: nat)
    ensures Find(s, pat, from).Some? ==>
      from <= Find(s, pat, from).value && OccursAt(s, pat, Find(s, pat, from).value)
      && forall j | from <= j < Find(s, pat, from).value :: !OccursAt(s, pat, j)
    ensures Find(s, pat, from).None? ==> forall j | from <= j :: !OccursAt(s, pat, j)
    decreases |s| - from
  {
    if from + |pat| <= |s| && s[from..from + |pat|] != pat {
      FindIsFirst(s, pat, from + 1);
    }
  }

  /** std::string::find_first_of with a one-character set: the first c at or after `from`. */
  function FindChar(s: string, c: char, from: nat): (r: Option<nat>)
    ensures r.Some? ==> from <= r.value < |s| && s[r.value] == c
    decreases |s| - from
  {
    if from >= |s| then None
    else if s[from] == c then Some(from)
    else FindChar(s, c, from + 1)
  }

  /** FindChar returns the first c at or after `from`, and nothing only when there is none. */
  lemma {:induction false} FindCharIsFirst(s: string, c: char, from: nat)
    ensures FindChar(s, c, from).Some? ==> forall j | from <= j < FindChar(s, c, from).value :: s[j] != c
    ensures FindChar(s, c, from).None? ==> forall j | from <= j < |s| :: s[j] != c
    decreases |s| - from
  {
    if from < |s| && s[from] != c {
      FindCharIsFirst(s, c, from + 1);
    }
  }

  // ---------------------------------------------------------------------
  // Tokens of a vertex line
  // ---------------------------------------------------------------------

  /**
   * The space-separated fields of s from position `from` on: every space
   * ends a field, so two spaces in a row make an empty field and a trailing
   * space makes an empty last one.
   */
  function Fields(s: string, from: nat): (fs: seq<string>)
    requires from <= |s|
    decreases |s| - from
  {
    match FindChar(s, ' ', from)
    case None => [s[from..]]
    case Some(i) => [s[from..i]] + Fields(s, i + 1)
  }

  /** The fields joined back with one space between neighbours. */
  function Join(fs: seq<string>): string
  {
    if fs == [] then "" else if |fs| == 1 then fs[0] else fs[0] + " " + Join(fs[1..])
  }

  /** Splitting at spaces loses nothing: joining the fields gives back the text, and no field holds a space. */
  lemma {:induction false} FieldsRoundTrip(s: string, from: nat)
    requires from <= |s|
    ensures Join(Fields(s, from)) == s[from..]
    ensures forall f <- Fields(s, from) :: ' ' !in f
    decreases |s| - from
  {
    FindCharIsFirst(s, ' ', from);
    match FindChar(s, ' ', from)
    case None =>
      assert forall k | 0 <= k < |s[from..]| :: s[from..][k] == s[from + k];
    case Some(i) =>
      FieldsRoundTrip(s, i + 1);
      var rest := Fields(s, i + 1);
      assert Fields(s, from)[1..] == rest;
      assert forall k | 0 <= k < |s[from..i]| :: s[from..i][k] == s[from + k];
      assert s[from..] == s[from..i] + " " + s[i + 1..];
  }

  /**
   * The tokens of a line: none when it does not contain "vertex"; otherwise
   * the fields after the first space at or after the tag (no tokens when
   * there is no such space).
   */
  function VertexTokens(line: string): Option<seq<string>>
  {
    match Find(line, Key, 0)
    case None => None
    case Some(k) =>
      match FindChar(line, ' ', k)
      case None => Some([])
      case Some(p) => Some(Fields(line, p + 1))
  }

  // ---------------------------------------------------------------------
  // Numbers
  // ---------------------------------------------------------------------

  /**
   * A token split at its first 'E' into the coefficient and exponent
   * handed to atof; a token without 'E' is all coefficient, with an empty
   * exponent (atof reads 0 from it, so the factor pow(10, 0) is 1).
   */
  function SplitExponent(t: string): (string, string)
  {
    match FindChar(t, 'E', 0)
    case None => (t, "")
    case Some(k) => (t[..k], t[k + 1..])
  }

  /**
   * The split as the code writes it: without an 'E' the search yields npos,
   * npos + 1 wraps round to 0, and the exponent is the whole token.
   */
  function SplitExponentAsWritten(t: string): (string, string)
  {
    match FindChar(t, 'E', 0)
    case None => (t, t)
    case Some(k) => (t[..k], t[k + 1..])
  }

  /** The split is a partition at the first 'E': the coefficient has no 'E', and the parts rebuild the token. */
  lemma SplitExponentRejoins(t: string)
    ensures 'E' !in SplitExponent(t).0
    ensures 'E' in t ==> t == SplitExponent(t).0 + "E" + SplitExponent(t).1
    ensures 'E' !in t ==> SplitExponent(t) == (t, "")
  {
    FindCharIsFirst(t, 'E', 0);
    match FindChar(t, 'E', 0)
    case None =>
    case Some(k) =>
      assert forall x | 0 <= x < |t[..k]| :: t[..k][x] == t[x];
      assert t == t[..k] + [t[k]] + t[k + 1..];
  }

  /** The code as written agrees with the partition exactly when the token has an 'E'. */
  lemma SplitExponentAsWrittenDiffers(t: string)
    ensures 'E' in t ==> SplitExponentAsWritten(t) == SplitExponent(t)
    ensures 'E' !in t ==> SplitExponentAsWritten(t) == (t, t) && SplitExponent(t) == (t, "")
  {
    FindCharIsFirst(t, 'E', 0);
  }

  /** The token "2" is read as 2 * 10^2: its exponent part is "2" instead of empty. */
  lemma AsWrittenPlainNumber()
    ensures SplitExponentAsWritten("2") == ("2", "2")
    ensures SplitExponent("2") == ("2", "")
  {
    assert FindChar("2", 'E', 1) == None;
  }

  /** The number written for a token. */
  function Coordinate(t: string): Piece
  {
    Number(SplitExponent(t).0, SplitExponent(t).1)
  }

  // ---------------------------------------------------------------------
  // Output
  // ---------------------------------------------------------------------

  /**
   * One coordinate at element index e: the first of a triple opens a
   * bracket, the first two are followed by a comma, the third closes the
   * bracket and the index returns to 0. Any other index writes nothing.
   */
  function Emit(e: int, n: Piece): (r: (seq<Piece>, int))
  {
    if e == 0 then ([Text("["), n, Text(", ")], 1)
    else if e == 1 then ([n, Text(", ")], 2)
    else if e == 2 then ([n, Text("] ")], 0)
    else ([], e)
  }

  /** The coordinates of a line's tokens, in order, from element index e. */
  function EmitAll(tokens: seq<string>, e: int): (r: (seq<Piece>, int))
  {
    if tokens == [] then ([], e)
    else
      var (out, e') := EmitAll(tokens[..|tokens| - 1], e);
      var (o, e'') := Emit(e', Coordinate(tokens[|tokens| - 1]));
      (out + o, e'')
  }

  /**
   * One line: a line without the tag changes nothing; a vertex line writes
   * its coordinates and counts one vertex, and every third vertex ends the
   * output line and counts a triangle.
   */
  function LineStep(line: string, c: Counters): (Counters, seq<Piece>)
  {
    match VertexTokens(line)
    case None => (c, [])
    case Some(tokens) =>
      var (out, e) := EmitAll(tokens, c.elementIndex);
      if c.vertexIndex + 1 >= 3 then (Counters(0, c.vertexCount + 1, c.triangleCount + 1, e), out + [Text("\n")])
      else (Counters(c.vertexIndex + 1, c.vertexCount + 1, c.triangleCount, e), out)
  }

  /** The counters and output after the given lines, from the start. */
  function Parse(lines: seq<string>): (Counters, seq<Piece>)
  {
    if lines == [] then (Start, [])
    else
      var (c, out) := Parse(lines[..|lines| - 1]);
      var (c', o) := LineStep(lines[|lines| - 1], c);
      (c', out + o)
  }

  /** The tokens after the space at p, when another space follows: the one up to it, then the rest. */
  lemma FieldsNext(line: string, p: nat, q: nat, before: seq<string>)
    requires p < |line| && FindChar(line, ' ', p + 1) == Some(q)
    ensures before + Fields(line, p + 1) == (before + [line[p + 1..q]]) + Fields(line, q + 1)
  {
    var rest := Fields(line, q + 1);
    assert Fields(line, p + 1) == [line[p + 1..q]] + rest;
    assert (before + [line[p + 1..q]]) + rest == before + ([line[p + 1..q]] + rest);
  }

  /** The tokens after the last space: the rest of the line. */
  lemma FieldsLast(line: string, p: nat, before: seq<string>)
    requires p < |line| && FindChar(line, ' ', p + 1) == None
    ensures before + Fields(line, p + 1) == before + [line[p + 1..]]
  {
    assert Fields(line, p + 1) == [line[p + 1..]];
  }

  /** One more token: its pieces follow those of the tokens before it. */
  lemma EmitAllSnoc(tokens: seq<string>, t: string, e: int)
    ensures EmitAll(tokens + [t], e)
      == (EmitAll(tokens, e).0 + Emit(EmitAll(tokens, e).1, Coordinate(t)).0,
          Emit(EmitAll(tokens, e).1, Coordinate(t)).1)
  {
    assert (tokens + [t])[..|tokens|] == tokens;
  }

  /**
   * One token of a vertex line, read after the space at p: up to the next
   * space, or to the end of the line when there is none.
   */
  method ReadElement(line: string, p: nat, ghost before: seq<string>) returns (element: string, curr: Option<nat>)
    requires p < |line|
    ensures curr == FindChar(line, ' ', p + 1)
    ensures curr.Some? ==> before + Fields(line, p + 1) == (before + [element]) + Fields(line, curr.value + 1)
    ensures curr.None? ==> before + Fields(line, p + 1) == before + [element]
  {
    curr := FindChar(line, ' ', p + 1);
    if curr.None? {
      element := line[p + 1..];
      FieldsLast(line, p, before);
    } else {
      element := line[p + 1..curr.value];
      FieldsNext(line, p, curr.value, before);
    }
  }

  /** The body of the read loop for one line: tokenise, write the coordinates, count the vertex. */
  method ParseLine(line: string, c: Counters) returns (c': Counters, out: seq<Piece>)
    ensures (c', out) == LineStep(line, c)
  {
    c', out := c, [];
    var foundKey := Find(line, Key, 0);
    if foundKey.None? {
      return;
    }
    var last := FindChar(line, ' ', foundKey.value);
    ghost var all: seq<string> := [];
    if last.Some? {
      all := Fields(line, last.value + 1);
    }
    assert VertexTokens(line) == Some(all);
    ghost var tokens: seq<string> := [];
    assert last.Some? ==> tokens + Fields(line, last.value + 1) == all;
    var e := c.elementIndex;
    while last.Some?
      invariant last.Some? ==> last.value < |line| && tokens + Fields(line, last.value + 1) == all
      invariant last.None? ==> tokens == all
      invariant (out, e) == EmitAll(tokens, c.elementIndex)
      decreases if last.None? then 0 else |line| - last.value
    {
      var element, curr := ReadElement(line, last.value, tokens);
      var (pieces, e') := Emit(e, Coordinate(element));
      EmitAllSnoc(tokens, element, c.elementIndex);
      tokens := tokens + [element];
      out, e := out + pieces, e';
      last := curr;
    }
    c' := Counters(c.vertexIndex + 1, c.vertexCount + 1, c.triangleCount, e);
    if c'.vertexIndex >= 3 {
      out := out + [Text("\n")];
      c' := c'.(vertexIndex := 0, triangleCount := c.triangleCount + 1);
    }
  }

  /** The argument checks: exactly two file names, the first containing ".stl". */
  function ArgumentFailure(args: seq<string>): (r: Option<string>)
    ensures r.None? <==> |args| == 3 && Find(args[1], ".stl", 0).Some?
    ensures |args| <= 2 ==> r == Some(NotEnoughArguments)
    ensures |args| > 3 ==> r == Some(TooManyArguments)
    ensures |args| == 3 && Find(args[1], ".stl", 0).None? ==> r == Some(WrongFiletype)
  {
    if |args| <= 2 then Some(NotEnoughArguments)
    else if |args| > 3 then Some(TooManyArguments)
    else if Find(args[1], ".stl", 0).None? then Some(WrongFiletype)
    else None
  }

  /**
   * main: check the arguments, open both files, then read the input line
   * by line until it is exhausted. `lines` are the lines read before the
   * stream stops being good (end of file or a read failure, which both
   * end the loop).
   */
  method Run(args: seq<string>, inputOpens: bool, outputOpens: bool, lines: seq<string>) returns (r: Outcome)
    ensures ArgumentFailure(args).Some? ==> r == Failure(ArgumentFailure(args).value)
    ensures ArgumentFailure(args).None? && !inputOpens ==> r == Failure(InputNotOpened)
    ensures ArgumentFailure(args).None? && inputOpens && !outputOpens ==> r == Failure(OutputNotOpened)
    ensures ArgumentFailure(args).None? && inputOpens && outputOpens ==>
      r == Finished(Parse(lines).1, Parse(lines).0.vertexCount, Parse(lines).0.triangleCount)
  {
    var failure := ArgumentFailure(args);
    if failure.Some? {
      return Failure(failure.value);
    }
    if !inputOpens {
      return Failure(InputNotOpened);
    }
    if !outputOpens {
      return Failure(OutputNotOpened);
    }
    var c := Start;
    var out: seq<Piece> := [];
    var i := 0;
    while i < |lines|
      invariant 0 <= i <= |lines|
      invariant (c, out) == Parse(lines[..i])
    {
      var c', o := ParseLine(lines[i], c);
      assert lines[..i + 1][..i] == lines[..i];
      c, out := c', out + o;
      i := i + 1;
    }
    assert lines[..i] == lines;
    return Finished(out, c.vertexCount, c.triangleCount);
  }

  // ---------------------------------------------------------------------
  // What the counters mean
  // ---------------------------------------------------------------------

  /** The number of lines holding the tag. */
  function VertexLines(lines: seq<string>): nat
  {
    if lines == [] then 0
    else VertexLines(lines[..|lines| - 1]) + (if VertexTokens(lines[|lines| - 1]).Some? then 1 else 0)
  }

  /** The number of tokens on all vertex lines. */
  function TokenCount(lines: seq<string>): nat
  {
    if lines == [] then 0
    else
      var last := VertexTokens(lines[|lines| - 1]);
      TokenCount(lines[..|lines| - 1]) + (if last.Some? then |last.value| else 0)
  }

  /** The element index advances by one per token, modulo 3. */
  lemma {:induction false} EmitAllAdvances(tokens: seq<string>, e: int)
    requires 0 <= e < 3
    ensures EmitAll(tokens, e).1 == (e + |tokens|) % 3
  {
    if tokens != [] {
      EmitAllAdvances(tokens[..|tokens| - 1], e);
    }
  }

  /**
   * After any input, vertex_count is the number of vertex lines,
   * triangle_count is a third of it, vertex_index what is left over, and
   * element_index the number of tokens read modulo 3.
   */
  lemma {:induction false} ParseCounts(lines: seq<string>)
    ensures Parse(lines).0.vertexCount == VertexLines(lines)
    ensures Parse(lines).0.triangleCount == VertexLines(lines) / 3
    ensures Parse(lines).0.vertexIndex == VertexLines(lines) % 3
    ensures Parse(lines).0.elementIndex == TokenCount(lines) % 3
  {
    if lines != [] {
      var n := |lines| - 1;
      ParseCounts(lines[..n]);
      var c := Parse(lines[..n]).0;
      match VertexTokens(lines[n])
      case None =>
      case Some(tokens) =>
        EmitAllAdvances(tokens, c.elementIndex);
    }
  }

  /** The coordinates never end an output line: no newline comes from EmitAll. */
  lemma {:induction false} EmitAllHasNoNewline(tokens: seq<string>, e: int)
    ensures Text("\n") !in EmitAll(tokens, e).0
  {
    if tokens != [] {
      EmitAllHasNoNewline(tokens[..|tokens| - 1], e);
    }
  }

  /** One output line per triangle: the output holds exactly triangle_count newlines. */
  lemma {:induction false} ParseNewlines(lines: seq<string>)
    ensures multiset(Parse(lines).1)[Text("\n")] == Parse(lines).0.triangleCount
  {
    if lines != [] {
      var n := |lines| - 1;
      ParseNewlines(lines[..n]);
      var c := Parse(lines[..n]).0;
      match VertexTokens(lines[n])
      case None =>
      case Some(tokens) =>
        EmitAllHasNoNewline(tokens, c.elementIndex);
        var out := EmitAll(tokens, c.elementIndex).0;
        assert multiset(out)[Text("\n")] == 0;
    }
  }

  /** The pieces written for one well-formed vertex: [x, y, z] followed by a space. */
  function Triple(x: string, y: string, z: string): seq<Piece>
  {
    [Text("["), Coordinate(x), Text(", "), Coordinate(y), Text(", "), Coordinate(z), Text("] ")]
  }

  /**
   * A vertex line with exactly three tokens, read at element index 0,
   * writes one bracketed triple (and a newline after every third vertex)
   * and leaves the element index at 0 for the next vertex.
   */
  lemma ThreeTokenLine(line: string, c: Counters, x: string, y: string, z: string)
    requires c.elementIndex == 0 && VertexTokens(line) == Some([x, y, z])
    ensures LineStep(line, c).0.elementIndex == 0
    ensures LineStep(line, c).1 == Triple(x, y, z) + (if c.vertexIndex + 1 >= 3 then [Text("\n")] else [])
  {
    EmitAllSnoc([], x, 0);
    assert [] + [x] == [x];
    EmitAllSnoc([x], y, 0);
    assert [x] + [y] == [x, y];
    EmitAllSnoc([x, y], z, 0);
    assert [x, y] + [z] == [x, y, z];
  }
}
