/**
 * `read_trimesh_obj`: per-line parsing of a vertex-coloured OBJ file into vertex
 * positions, vertex colours and faces. Opening the file is left out: the model
 * receives its lines. `float()` and `int()` on a token are parameters that either
 * give the number or fail, as Python's conversions raise ValueError.
 */
module ObjReader {
  import opened Wrappers
  import opened Geometry

  // ---------------------------------------------------------------- str.split()

  /** The characters Python's `str.isspace` accepts, which `str.split()` splits on. */
  predicate IsSpace(c: char) {
    || ('\t' <= c <= '\r')
    || ('\U{1C}' <= c <= '\U{1F}')
    || c == ' ' || c == '\U{85}' || c == '\U{A0}' || c == '\U{1680}'
    || ('\U{2000}' <= c <= '\U{200A}')
    || c == '\U{2028}' || c == '\U{2029}' || c == '\U{202F}' || c == '\U{205F}' || c == '\U{3000}'
  }

  /** A token of `str.split()`: non-empty, no whitespace in it. */
  predicate IsToken(t: string) {
    |t| > 0 && forall i :: 0 <= i < |t| ==> !IsSpace(t[i])
  }

  /** The length of the run of non-space characters that starts `s`. */
  function WordLength(s: string): (n: nat)
    ensures n <= |s|
    ensures forall i :: 0 <= i < n ==> !IsSpace(s[i])
    ensures n < |s| ==> IsSpace(s[n])
    decreases |s|
  {
    if s == [] || IsSpace(s[0]) then 0 else 1 + WordLength(s[1..])
  }

  /** `line.split()`: the maximal runs of non-space characters, in order. */
  function Split(s: string): (ts: seq<string>)
    ensures forall k :: 0 <= k < |ts| ==> IsToken(ts[k])
    decreases |s|
  {
    if s == [] then []
    else if IsSpace(s[0]) then Split(s[1..])
    else
      var n := WordLength(s);
      [s[..n]] + Split(s[n..])
  }

  /** `" ".join(ts)`. */
  function Join(ts: seq<string>): string
    decreases |ts|
  {
    if ts == [] then "" else if |ts| == 1 then ts[0] else ts[0] + " " + Join(ts[1..])
  }

  lemma WordLengthOfToken(t: string, rest: string)
    requires IsToken(t)
    requires rest == [] || IsSpace(rest[0])
    ensures WordLength(t + rest) == |t|
    decreases |t|
  {
    if |t| > 1 {
      assert (t + rest)[1..] == t[1..] + rest;
      WordLengthOfToken(t[1..], rest);
    }
  }

  /** Whitespace before a line's text changes nothing. */
  lemma {:induction false} SplitSkipsSpace(w: string, s: string)
    requires forall i :: 0 <= i < |w| ==> IsSpace(w[i])
    ensures Split(w + s) == Split(s)
    decreases |w|
  {
    if w != [] {
      assert (w + s)[0] == w[0] && IsSpace(w[0]);
      assert (w + s)[1..] == w[1..] + s;
      assert forall i :: 0 <= i < |w[1..]| ==> w[1..][i] == w[i + 1];
      SplitSkipsSpace(w[1..], s);
    } else {
      assert w + s == s;
    }
  }

  /** A token followed by whitespace (or nothing) is split off whole. */
  lemma SplitToken(t: string, rest: string)
    requires IsToken(t)
    requires rest == [] || IsSpace(rest[0])
    ensures Split(t + rest) == [t] + Split(rest)
  {
    WordLengthOfToken(t, rest);
    assert (t + rest)[0] == t[0];
    assert (t + rest)[..|t|] == t;
    assert (t + rest)[|t|..] == rest;
  }

  /** Splitting undoes joining with single spaces, followed by any whitespace (such as the newline). */
  lemma {:induction false} SplitJoin(ts: seq<string>, w: string)
    requires forall k :: 0 <= k < |ts| ==> IsToken(ts[k])
    requires forall i :: 0 <= i < |w| ==> IsSpace(w[i])
    ensures Split(Join(ts) + w) == ts
    decreases |ts|
  {
    if ts == [] {
      BlankLineHasNoTokens(w);
      assert Join(ts) + w == w;
    } else if |ts| == 1 {
      BlankLineHasNoTokens(w);
      SplitToken(ts[0], w);
      assert Join(ts) + w == ts[0] + w;
    } else {
      var rest := Join(ts[1..]) + w;
      assert Join(ts) + w == ts[0] + (" " + rest);
      SplitToken(ts[0], " " + rest);
      SplitSkipsSpace(" ", rest);
      SplitJoin(ts[1..], w);
      assert ts == [ts[0]] + ts[1..];
    }
  }

  /** A line that is only whitespace has no tokens. */
  lemma BlankLineHasNoTokens(w: string)
    requires forall i :: 0 <= i < |w| ==> IsSpace(w[i])
    ensures Split(w) == []
  {
    SplitSkipsSpace(w, "");
    assert w + "" == w;
  }

  // ---------------------------------------------------------------- parsing

  datatype VertexColor = VertexColor(r: real, g: real, b: real)

  /** The three lists `read_trimesh_obj` returns; a face is its tuple of 0-based indices. */
  datatype Mesh = Mesh(vertices: seq<Vec3>, colors: seq<VertexColor>, faces: seq<seq<int>>)

  /** `float(token)` and `int(token)`: the number, or `None` where Python raises ValueError. */
  datatype NumberParsers = NumberParsers(toFloat: string -> Option<real>, toInt: string -> Option<int>)

  datatype ParseError = NotAFloat(token: string) | NotAnInt(token: string)

  function Float(p: NumberParsers, t: string): Result<real, ParseError> {
    match p.toFloat(t)
    case Some(x) => Success(x)
    case None => Failure(NotAFloat(t))
  }

  /** `[int(idx) - 1 for idx in ts]`: the first token that is not an integer raises. */
  function FaceIndices(p: NumberParsers, ts: seq<string>): (r: Result<seq<int>, ParseError>)
    ensures r.Success? ==> |r.value| == |ts| && forall k :: 0 <= k < |ts| ==> p.toInt(ts[k]) == Some(r.value[k] + 1)
    ensures r.Failure? ==>
      exists k :: 0 <= k < |ts| && p.toInt(ts[k]).None? && r.error == NotAnInt(ts[k]) &&
                  forall j :: 0 <= j < k ==> p.toInt(ts[j]).Some?
    ensures r.Success? <==> forall k :: 0 <= k < |ts| ==> p.toInt(ts[k]).Some?
    decreases |ts|
  {
    if ts == [] then Success([])
    else match p.toInt(ts[0])
      case None => Failure(NotAnInt(ts[0]))
      case Some(i) =>
        var rest :- FaceIndices(p, ts[1..]);
        assert forall k :: 1 <= k < |ts| ==> ts[k] == ts[1..][k - 1];
        Success([i - 1] + rest)
  }

  /** What one line contributes. */
  datatype LineItem = Blank | Ignored | VertexLine(vertex: Vec3, color: VertexColor) | FaceLine(face: seq<int>)

  predicate IsVertexLine(parts: seq<string>) {
    |parts| == 7 && parts[0] == "v"
  }

  predicate IsFaceLine(parts: seq<string>) {
    |parts| >= 4 && parts[0] == "f"
  }

  /** One iteration of the loop, on the line's tokens. */
  function ParseLine(p: NumberParsers, parts: seq<string>): (r: Result<LineItem, ParseError>)
    ensures |parts| == 0 ==> r == Success(Blank)
    ensures r.Success? && r.value.VertexLine? ==> IsVertexLine(parts)
    ensures r.Success? && r.value.FaceLine? ==> IsFaceLine(parts) && |r.value.face| == |parts| - 1
    ensures r.Failure? ==> IsVertexLine(parts) || IsFaceLine(parts)
    ensures |parts| > 0 && !IsVertexLine(parts) && !IsFaceLine(parts) ==> r == Success(Ignored)
  {
    if |parts| == 0 then Success(Blank)
    else if parts[0] == "v" && |parts| == 7 then
      var x :- Float(p, parts[1]);
      var y :- Float(p, parts[2]);
      var z :- Float(p, parts[3]);
      var r :- Float(p, parts[4]);
      var g :- Float(p, parts[5]);
      var b :- Float(p, parts[6]);
      Success(VertexLine(Vec3(x, y, z), VertexColor(r, g, b)))
    else if parts[0] == "f" && |parts| >= 4 then
      var face :- FaceIndices(p, parts[1..]);
      Success(FaceLine(face))
    else Success(Ignored)
  }

  function AddItem(m: Mesh, item: LineItem): Mesh {
    match item
    case VertexLine(v, c) => Mesh(m.vertices + [v], m.colors + [c], m.faces)
    case FaceLine(f) => Mesh(m.vertices, m.colors, m.faces + [f])
    case _ => m
  }

  const EmptyMesh := Mesh([], [], [])

  /** The whole file, line by line; the first conversion error ends it. */
  function ParseObj(p: NumberParsers, lines: seq<string>): Result<Mesh, ParseError>
    decreases |lines|
  {
    if lines == [] then Success(EmptyMesh)
    else
      var mesh :- ParseObj(p, lines[..|lines| - 1]);
      var item :- ParseLine(p, Split(lines[|lines| - 1]));
      Success(AddItem(mesh, item))
  }

  /** `read_trimesh_obj` on the lines of the file. */
  method ReadTrimeshObj(p: NumberParsers, lines: seq<string>) returns (r: Result<Mesh, ParseError>)
    ensures r == ParseObj(p, lines)
  {
    var vertices: seq<Vec3> := [];
    var colors: seq<VertexColor> := [];
    var faces: seq<seq<int>> := [];
    var i := 0;
    while i < |lines|
      invariant 0 <= i <= |lines|
      invariant ParseObj(p, lines[..i]) == Success(Mesh(vertices, colors, faces))
    {
      assert lines[..i + 1][..i] == lines[..i];
      var parts := Split(lines[i]);
      if |parts| == 0 {
        i := i + 1;
        continue;
      }
      if parts[0] == "v" && |parts| == 7 {
        var x := Float(p, parts[1]);
        var y := Float(p, parts[2]);
        var z := Float(p, parts[3]);
        var red := Float(p, parts[4]);
        var green := Float(p, parts[5]);
        var blue := Float(p, parts[6]);
        if x.Failure? || y.Failure? || z.Failure? || red.Failure? || green.Failure? || blue.Failure? {
          r := ParseLine(p, parts).PropagateFailure();
          ParseObjStopsAt(p, lines, i + 1);
          return;
        }
        vertices := vertices + [Vec3(x.value, y.value, z.value)];
        colors := colors + [VertexColor(red.value, green.value, blue.value)];
      } else if parts[0] == "f" && |parts| >= 4 {
        var face := FaceIndices(p, parts[1..]);
        if face.Failure? {
          r := Failure(face.error);
          ParseObjStopsAt(p, lines, i + 1);
          return;
        }
        faces := faces + [face.value];
      }
      i := i + 1;
    }
    assert lines[..i] == lines;
    r := Success(Mesh(vertices, colors, faces));
  }

  /** Appending the items of a second mesh. */
  function Concat(m1: Mesh, m2: Mesh): Mesh {
    Mesh(m1.vertices + m2.vertices, m1.colors + m2.colors, m1.faces + m2.faces)
  }

  function ThenMesh(first: Result<Mesh, ParseError>, second: Result<Mesh, ParseError>): Result<Mesh, ParseError> {
    match first
    case Failure(e) => Failure(e)
    case Success(m1) =>
      match second
      case Failure(e) => Failure(e)
      case Success(m2) => Success(Concat(m1, m2))
  }

  /**
   * Parsing a file is parsing its two parts in order: outputs follow line order,
   * and the error reported is the earliest.
   */
  lemma {:induction false} ParseObjAppend(p: NumberParsers, xs: seq<string>, ys: seq<string>)
    ensures ParseObj(p, xs + ys) == ThenMesh(ParseObj(p, xs), ParseObj(p, ys))
    decreases |ys|
  {
    if ys == [] {
      assert xs + ys == xs;
      if ParseObj(p, xs).Success? {
        var m := ParseObj(p, xs).value;
        assert Concat(m, EmptyMesh) == m;
      }
    } else {
      var ys' := ys[..|ys| - 1];
      assert (xs + ys)[..|xs + ys| - 1] == xs + ys';
      assert (xs + ys)[|xs + ys| - 1] == ys[|ys| - 1];
      ParseObjAppend(p, xs, ys');
      var item := ParseLine(p, Split(ys[|ys| - 1]));
      if ParseObj(p, xs).Success? && ParseObj(p, ys').Success? && item.Success? {
        var m1, m2 := ParseObj(p, xs).value, ParseObj(p, ys').value;
        assert AddItem(Concat(m1, m2), item.value) == Concat(m1, AddItem(m2, item.value));
      }
    }
  }

  /** Once a prefix of the lines fails, the whole file fails the same way. */
  lemma ParseObjStopsAt(p: NumberParsers, lines: seq<string>, n: nat)
    requires n <= |lines|
    requires ParseObj(p, lines[..n]).Failure?
    ensures ParseObj(p, lines) == ParseObj(p, lines[..n])
  {
    assert lines == lines[..n] + lines[n..];
    ParseObjAppend(p, lines[..n], lines[n..]);
  }

  // ---------------------------------------------------------------- laws

  /**
   * The rules for one line: no tokens is skipped; `v` with exactly seven tokens gives a
   * vertex from tokens 1-3 and a colour from tokens 4-6; `f` with at least four tokens
   * gives a face of the tokens minus one; every other line is ignored.
   */
  lemma LineRules(p: NumberParsers, parts: seq<string>)
    ensures |parts| == 0 ==> ParseLine(p, parts) == Success(Blank)
    ensures IsVertexLine(parts) ==>
      (ParseLine(p, parts).Success? <==> forall k :: 1 <= k < 7 ==> p.toFloat(parts[k]).Some?)
    ensures IsVertexLine(parts) && ParseLine(p, parts).Success? ==>
      ParseLine(p, parts).value == VertexLine(
        Vec3(p.toFloat(parts[1]).value, p.toFloat(parts[2]).value, p.toFloat(parts[3]).value),
        VertexColor(p.toFloat(parts[4]).value, p.toFloat(parts[5]).value, p.toFloat(parts[6]).value))
    ensures IsFaceLine(parts) && ParseLine(p, parts).Success? ==>
      && ParseLine(p, parts).value.FaceLine?
      && |ParseLine(p, parts).value.face| == |parts| - 1 >= 3
      && forall k :: 0 <= k < |parts| - 1 ==> p.toInt(parts[k + 1]) == Some(ParseLine(p, parts).value.face[k] + 1)
    ensures |parts| > 0 && !IsVertexLine(parts) && !IsFaceLine(parts) ==> ParseLine(p, parts) == Success(Ignored)
  {
  }

  function VertexLineCount(lines: seq<string>): nat
    decreases |lines|
  {
    if lines == [] then 0
    else VertexLineCount(lines[..|lines| - 1]) + if IsVertexLine(Split(lines[|lines| - 1])) then 1 else 0
  }

  function FaceLineCount(lines: seq<string>): nat
    decreases |lines|
  {
    if lines == [] then 0
    else FaceLineCount(lines[..|lines| - 1]) + if IsFaceLine(Split(lines[|lines| - 1])) then 1 else 0
  }

  /**
   * A parsed file has one vertex and one colour per seven-token `v` line, one face per
   * `f` line of four or more tokens, and every face has at least three corners.
   */
  lemma {:induction false} MeshShape(p: NumberParsers, lines: seq<string>)
    requires ParseObj(p, lines).Success?
    ensures |ParseObj(p, lines).value.vertices| == VertexLineCount(lines)
    ensures |ParseObj(p, lines).value.colors| == VertexLineCount(lines)
    ensures |ParseObj(p, lines).value.faces| == FaceLineCount(lines)
    ensures forall k :: 0 <= k < |ParseObj(p, lines).value.faces| ==> |ParseObj(p, lines).value.faces[k]| >= 3
    decreases |lines|
  {
    if lines != [] {
      MeshShape(p, lines[..|lines| - 1]);
      LineRules(p, Split(lines[|lines| - 1]));
    }
  }

  const ExampleColor := VertexColor(0.52941, 0.80784, 0.92157)

  /** The tokens of the docstring's example file, one sequence per line. */
  const ExampleTokens: seq<seq<string>> := [
    ["v", "0.000000", "0.000000", "0.000000", "0.52941", "0.80784", "0.92157"],
    ["v", "0.000000", "0.000000", "1.000000", "0.52941", "0.80784", "0.92157"],
    ["v", "0.000000", "1.000000", "0.000000", "0.52941", "0.80784", "0.92157"],
    ["f", "1", "2", "3"]]

  /** Lines written as their tokens separated by single spaces, then a newline, split back into those tokens. */
  lemma JoinedLinesSplit(tokens: seq<seq<string>>, lines: seq<string>)
    requires forall k, i :: 0 <= k < |tokens| && 0 <= i < |tokens[k]| ==> IsToken(tokens[k][i])
    requires |lines| == |tokens| && forall k :: 0 <= k < |lines| ==> lines[k] == Join(tokens[k]) + "\n"
    ensures forall k :: 0 <= k < |lines| ==> Split(lines[k]) == tokens[k]
  {
    forall k | 0 <= k < |lines|
      ensures Split(lines[k]) == tokens[k]
    {
      SplitJoin(tokens[k], "\n");
    }
  }

  /** The numbers the example needs, as Python's `float()` and `int()` read them. */
  predicate ReadsExampleNumbers(p: NumberParsers) {
    && p.toFloat("0.000000") == Some(0.0) && p.toFloat("1.000000") == Some(1.0)
    && p.toFloat("0.52941") == Some(0.52941) && p.toFloat("0.80784") == Some(0.80784)
    && p.toFloat("0.92157") == Some(0.92157)
    && p.toInt("1") == Some(1) && p.toInt("2") == Some(2) && p.toInt("3") == Some(3)
  }

  lemma ExampleItems(p: NumberParsers)
    requires ReadsExampleNumbers(p)
    ensures ParseLine(p, ExampleTokens[0]) == Success(VertexLine(Vec3(0.0, 0.0, 0.0), ExampleColor))
    ensures ParseLine(p, ExampleTokens[1]) == Success(VertexLine(Vec3(0.0, 0.0, 1.0), ExampleColor))
    ensures ParseLine(p, ExampleTokens[2]) == Success(VertexLine(Vec3(0.0, 1.0, 0.0), ExampleColor))
    ensures ParseLine(p, ExampleTokens[3]) == Success(FaceLine([0, 1, 2]))
  {
    var corners := ExampleTokens[3][1..];
    assert corners == ["1", "2", "3"];
    var face := FaceIndices(p, corners);
    assert face.Success?;
    assert p.toInt(corners[0]) == Some(face.value[0] + 1);
    assert p.toInt(corners[1]) == Some(face.value[1] + 1);
    assert p.toInt(corners[2]) == Some(face.value[2] + 1);
    assert face.value == [0, 1, 2];
  }

  /** Every line's item added in order, starting from `m`. */
  function AddItems(m: Mesh, items: seq<LineItem>): Mesh
    decreases |items|
  {
    if items == [] then m else AddItem(AddItems(m, items[..|items| - 1]), items[|items| - 1])
  }

  /** When no line fails, the file's mesh is every line's item added in order. */
  lemma {:induction false} ParseObjFolds(p: NumberParsers, lines: seq<string>, items: seq<LineItem>)
    requires |items| == |lines|
    requires forall k :: 0 <= k < |lines| ==> ParseLine(p, Split(lines[k])) == Success(items[k])
    ensures ParseObj(p, lines) == Success(AddItems(EmptyMesh, items))
    decreases |lines|
  {
    if lines != [] {
      var n := |lines| - 1;
      ParseObjFolds(p, lines[..n], items[..n]);
    }
  }

  lemma ExampleFold()
    ensures AddItems(EmptyMesh, [VertexLine(Vec3(0.0, 0.0, 0.0), ExampleColor), VertexLine(Vec3(0.0, 0.0, 1.0), ExampleColor),
                                 VertexLine(Vec3(0.0, 1.0, 0.0), ExampleColor), FaceLine([0, 1, 2])])
         == Mesh([Vec3(0.0, 0.0, 0.0), Vec3(0.0, 0.0, 1.0), Vec3(0.0, 1.0, 0.0)],
                 [ExampleColor, ExampleColor, ExampleColor],
                 [[0, 1, 2]])
  {
    var c := ExampleColor;
    var items := [VertexLine(Vec3(0.0, 0.0, 0.0), c), VertexLine(Vec3(0.0, 0.0, 1.0), c),
                  VertexLine(Vec3(0.0, 1.0, 0.0), c), FaceLine([0, 1, 2])];
    assert items[..1][..0] == [];
    assert AddItems(EmptyMesh, items[..1]) == Mesh([Vec3(0.0, 0.0, 0.0)], [c], []);
    assert items[..2][..1] == items[..1];
    assert AddItems(EmptyMesh, items[..2]) == Mesh([Vec3(0.0, 0.0, 0.0), Vec3(0.0, 0.0, 1.0)], [c, c], []);
    assert items[..3][..2] == items[..2];
    assert items[..|items| - 1] == items[..3];
  }

  /**
   * The docstring's example: any file whose lines split into the tokens of three
   * coloured `v` lines and `f 1 2 3` gives three vertices, three colours and the face (0, 1, 2).
   */
  lemma {:induction false} DocstringExample(p: NumberParsers, lines: seq<string>)
    requires ReadsExampleNumbers(p)
    requires |lines| == |ExampleTokens| && forall k :: 0 <= k < |lines| ==> Split(lines[k]) == ExampleTokens[k]
    ensures ParseObj(p, lines) == Success(Mesh(
      [Vec3(0.0, 0.0, 0.0), Vec3(0.0, 0.0, 1.0), Vec3(0.0, 1.0, 0.0)],
      [ExampleColor, ExampleColor, ExampleColor],
      [[0, 1, 2]]))
  {
    ExampleItems(p);
    var c := ExampleColor;
    var items := [VertexLine(Vec3(0.0, 0.0, 0.0), c), VertexLine(Vec3(0.0, 0.0, 1.0), c),
                  VertexLine(Vec3(0.0, 1.0, 0.0), c), FaceLine([0, 1, 2])];
    forall k | 0 <= k < |lines|
      ensures ParseLine(p, Split(lines[k])) == Success(items[k])
    {
      assert Split(lines[k]) == ExampleTokens[k];
    }
    ParseObjFolds(p, lines, items);
    ExampleFold();
  }
}
