/**
  Route patterns: the `{name}` to `:name` rewrite that src/index.js applies to
  every route key, and a segment matcher standing in for the path-parser
  library's `Path.createPath(...).test(pathname)`.

  The matcher is a simplification of the library: a pattern and a pathname
  are split at every `/`; they match when they have the same number of
  segments, every literal segment is equal, and every `:name` segment
  captures one non-empty segment.
*/
module PathPattern {
  import opened Wrappers

  // ----- the regular expression /{(.+?)}/g with replacement ':$1' -----

  /** The characters `.` does not match in a JavaScript regular expression. */
  predicate IsLineTerminator(c: char) {
    c == '\n' || c == '\r' || c == '\U{2028}' || c == '\U{2029}'
  }

  /**
    For `s` starting at a `{`, the position of the `}` that closes the lazy
    match `{(.+?)}` when scanning resumes at `j`: the first `}` at position 2
    or later, provided no line terminator comes before it.
  */
  function FindClose(s: string, j: nat): (r: Option<nat>)
    requires 1 <= j <= |s|
    ensures r.Some? ==> 2 <= r.value < |s| && j <= r.value && s[r.value] == '}'
    decreases |s| - j
  {
    if j == |s| then None
    else if j >= 2 && s[j] == '}' then Some(j)
    else if IsLineTerminator(s[j]) then None
    else FindClose(s, j + 1)
  }

  /** `s.replace(/{(.+?)}/g, ':$1')`: every `{name}` becomes `:name`, left to right. */
  function ReplaceBraces(s: string): string
    decreases |s|
  {
    if s == [] then []
    else if s[0] == '{' && FindClose(s, 1).Some? then
      var j := FindClose(s, 1).value;
      [':'] + s[1..j] + ReplaceBraces(s[j + 1..])
    else
      [s[0]] + ReplaceBraces(s[1..])
  }

  /** A route key as written: literal text and `{name}` placeholders. */
  datatype Piece = Text(t: string) | Placeholder(name: string)

  /** A placeholder the regular expression captures whole: non-empty, no `}`, no line break. */
  predicate GoodPiece(p: Piece) {
    match p
    case Text(t) => '{' !in t
    case Placeholder(x) =>
      x != "" && '}' !in x && forall i :: 0 <= i < |x| ==> !IsLineTerminator(x[i])
  }

  /** The key text of a piece list, placeholders in braces. */
  function Render(ps: seq<Piece>): string {
    if ps == [] then []
    else
      (match ps[0]
       case Text(t) => t
       case Placeholder(x) => "{" + x + "}") + Render(ps[1..])
  }

  /** The same pieces with every placeholder spelt `:name`, as path-parser expects. */
  function RenderColon(ps: seq<Piece>): string {
    if ps == [] then []
    else
      (match ps[0]
       case Text(t) => t
       case Placeholder(x) => ":" + x) + RenderColon(ps[1..])
  }

  // ----- splitting at '/' -----

  /** `s.split('/')`: always at least one part, and no part contains `/`. */
  function Split(s: string): (r: seq<string>)
    ensures |r| >= 1
    ensures forall i :: 0 <= i < |r| ==> '/' !in r[i]
    ensures |r| == 1 <==> '/' !in s
  {
    if s == [] then [""]
    else if s[0] == '/' then [""] + Split(s[1..])
    else
      var t := Split(s[1..]);
      [[s[0]] + t[0]] + t[1..]
  }

  /** `parts.join('/')`. */
  function Join(parts: seq<string>): string
    requires |parts| >= 1
  {
    if |parts| == 1 then parts[0] else parts[0] + "/" + Join(parts[1..])
  }

  // ----- compiled patterns and matching -----

  datatype Segment = Lit(text: string) | Param(name: string)

  /** A compiled pattern; `source` is the string it was created from. */
  datatype Path = Path(source: string, segments: seq<Segment>)

  function ToSegment(part: string): Segment {
    if |part| >= 1 && part[0] == ':' then Param(part[1..]) else Lit(part)
  }

  /** The text a segment was parsed from. */
  function SegmentText(seg: Segment): string {
    match seg
    case Lit(t) => t
    case Param(x) => ":" + x
  }

  /** `Path.createPath(source)`: one segment per `/`-separated part. */
  function CreatePath(source: string): (p: Path)
    ensures p.source == source
    ensures |p.segments| >= 1
    ensures forall i :: 0 <= i < |p.segments| ==> '/' !in SegmentText(p.segments[i])
  {
    var parts := Split(source);
    Path(source, seq(|parts|, i requires 0 <= i < |parts| => ToSegment(parts[i])))
  }

  /** Whether one segment of a pathname is accepted by one pattern segment. */
  predicate Accepts(seg: Segment, part: string) {
    match seg
    case Lit(t) => part == t
    case Param(_) => part != ""
  }

  /** Declarative matching: same segment count, and every segment accepted. */
  predicate Conforms(segs: seq<Segment>, parts: seq<string>) {
    |segs| == |parts| && forall i :: 0 <= i < |segs| ==> Accepts(segs[i], parts[i])
  }

  /** The placeholder names of a pattern, in order. */
  function ParamNames(segs: seq<Segment>): (r: seq<string>)
    ensures forall x :: x in r <==> exists i :: 0 <= i < |segs| && segs[i] == Param(x)
  {
    if segs == [] then []
    else if segs[0].Param? then [segs[0].name] + ParamNames(segs[1..])
    else
      assert forall i :: 1 <= i < |segs| ==> segs[i] == segs[1..][i - 1];
      ParamNames(segs[1..])
  }

  /** The captures of a conforming pathname; a later placeholder of the same name wins. */
  function Capture(segs: seq<Segment>, parts: seq<string>): (r: Option<map<string, string>>)
    requires |segs| == |parts|
    ensures r.Some? <==> Conforms(segs, parts)
    ensures r.Some? ==> r.value.Keys == set x | x in ParamNames(segs)
  {
    if segs == [] then Some(map[])
    else
      var rest := Capture(segs[1..], parts[1..]);
      assert Conforms(segs, parts) <==> Accepts(segs[0], parts[0]) && Conforms(segs[1..], parts[1..]) by {
        if Accepts(segs[0], parts[0]) && Conforms(segs[1..], parts[1..]) {
          forall i | 0 <= i < |segs| ensures Accepts(segs[i], parts[i]) {
            if i > 0 { assert segs[i] == segs[1..][i - 1] && parts[i] == parts[1..][i - 1]; }
          }
        }
      }
      if !Accepts(segs[0], parts[0]) || rest.None? then None
      else
        match segs[0]
        case Lit(_) => rest
        case Param(x) => Some(map[x := parts[0]] + rest.value)
  }

  /** `path.test(pathname)`: the captured parameters, or `None` (the library's `null`). */
  function Test(p: Path, pathname: string): (r: Option<map<string, string>>)
    ensures r.Some? <==> Conforms(p.segments, Split(pathname))
    ensures r.Some? ==> r.value.Keys == set x | x in ParamNames(p.segments)
  {
    var parts := Split(pathname);
    if |parts| != |p.segments| then None else Capture(p.segments, parts)
  }

  // ----- properties of the rewrite -----

  /** Text without `{` passes through the rewrite unchanged. */
  lemma {:induction false} ReplaceTextPrefix(t: string, rest: string)
    requires '{' !in t
    ensures ReplaceBraces(t + rest) == t + ReplaceBraces(rest)
    decreases |t|
  {
    if t != [] {
      assert t[0] != '{';
      assert (t + rest)[0] == t[0] && (t + rest)[1..] == t[1..] + rest;
      ReplaceTextPrefix(t[1..], rest);
      assert [t[0]] + (t[1..] + ReplaceBraces(rest)) == t + ReplaceBraces(rest);
    } else {
      assert t + rest == rest;
    }
  }

  /** A key without braces is its own pattern source. */
  lemma NoBracesUnchanged(s: string)
    requires '{' !in s
    ensures ReplaceBraces(s) == s
  {
    ReplaceTextPrefix(s, []);
    assert s + [] == s;
  }

  /** Scanning a well-formed placeholder stops exactly at its closing brace. */
  lemma {:induction false} FindCloseOfPlaceholder(x: string, rest: string, j: nat)
    requires GoodPiece(Placeholder(x))
    requires 1 <= j <= |x| + 1
    ensures FindClose("{" + x + "}" + rest, j) == Some(|x| + 1)
    decreases |x| + 1 - j
  {
    var s := "{" + x + "}" + rest;
    if j < |x| + 1 {
      assert s[j] == x[j - 1];
      FindCloseOfPlaceholder(x, rest, j + 1);
    } else {
      assert s[j] == '}';
    }
  }

  lemma ReplacePlaceholder(x: string, rest: string)
    requires GoodPiece(Placeholder(x))
    ensures ReplaceBraces("{" + x + "}" + rest) == ":" + x + ReplaceBraces(rest)
  {
    var s := "{" + x + "}" + rest;
    FindCloseOfPlaceholder(x, rest, 1);
    assert s[1..|x| + 1] == x;
    assert s[|x| + 2..] == rest;
  }

  /** The rewrite turns every `{name}` of a well-formed key into `:name` and keeps the rest. */
  lemma {:induction false} ReplaceBracesRender(ps: seq<Piece>)
    requires forall i :: 0 <= i < |ps| ==> GoodPiece(ps[i])
    ensures ReplaceBraces(Render(ps)) == RenderColon(ps)
  {
    if ps != [] {
      ReplaceBracesRender(ps[1..]);
      match ps[0]
      case Text(t) =>
        ReplaceTextPrefix(t, Render(ps[1..]));
      case Placeholder(x) =>
        assert Render(ps) == "{" + x + "}" + Render(ps[1..]);
        ReplacePlaceholder(x, Render(ps[1..]));
    }
  }

  // ----- split and join are inverse -----

  lemma {:induction false} SplitPrefix(a: string, t: string)
    requires '/' !in a
    ensures Split(a + t) == [a + Split(t)[0]] + Split(t)[1..]
    decreases |a|
  {
    if a != [] {
      assert a[0] != '/';
      assert (a + t)[0] == a[0] && (a + t)[1..] == a[1..] + t;
      SplitPrefix(a[1..], t);
      assert [a[0]] + (a[1..] + Split(t)[0]) == a + Split(t)[0];
    } else {
      assert a + t == t;
      assert a + Split(t)[0] == Split(t)[0];
      assert Split(t) == [Split(t)[0]] + Split(t)[1..];
    }
  }

  /** Splitting a join of `/`-free parts gives the parts back. */
  lemma {:induction false} SplitJoin(parts: seq<string>)
    requires |parts| >= 1
    requires forall i :: 0 <= i < |parts| ==> '/' !in parts[i]
    ensures Split(Join(parts)) == parts
  {
    if |parts| == 1 {
      SplitPrefix(parts[0], []);
      assert parts[0] + [] == parts[0];
    } else {
      SplitJoin(parts[1..]);
      var j := Join(parts[1..]);
      assert parts[0] + "/" + j == parts[0] + ("/" + j);
      SplitPrefix(parts[0], "/" + j);
      assert ("/" + j)[1..] == j;
      assert Split("/" + j) == [""] + parts[1..];
      assert parts[0] + "" == parts[0];
    }
  }

  /** Joining the parts of a split gives the string back. */
  lemma {:induction false} JoinSplit(s: string)
    ensures Join(Split(s)) == s
    decreases |s|
  {
    if s != [] {
      JoinSplit(s[1..]);
      if s[0] == '/' {
        assert s == "" + "/" + s[1..];
      } else {
        var t := Split(s[1..]);
        if |t| == 1 {
        } else {
          assert t == [t[0]] + t[1..];
          assert Join(t) == t[0] + "/" + Join(t[1..]);
        }
      }
    }
  }

  /** The texts of a list of segments. */
  function Texts(segs: seq<Segment>): seq<string> {
    seq(|segs|, i requires 0 <= i < |segs| => SegmentText(segs[i]))
  }

  /** The segments of a compiled pattern spell out its source again. */
  lemma CreatePathSource(source: string)
    ensures Join(Texts(CreatePath(source).segments)) == source
  {
    var parts := Split(source);
    var texts := Texts(CreatePath(source).segments);
    forall i | 0 <= i < |parts| ensures texts[i] == parts[i] {
      var t := parts[i];
      if |t| >= 1 && t[0] == ':' { assert t == ":" + t[1..]; }
    }
    assert texts == parts;
    JoinSplit(source);
  }

  // ----- every conforming pathname matches -----

  /** The pathname parts obtained by putting `vals`, in order, into the placeholders. */
  function Instantiate(segs: seq<Segment>, vals: seq<string>): (r: seq<string>)
    requires |vals| == |ParamNames(segs)|
    ensures |r| == |segs|
  {
    if segs == [] then []
    else if segs[0].Param? then [vals[0]] + Instantiate(segs[1..], vals[1..])
    else [segs[0].text] + Instantiate(segs[1..], vals)
  }

  /** Names bound to values position by position; a later name wins. */
  function Zip(names: seq<string>, vals: seq<string>): (m: map<string, string>)
    requires |names| == |vals|
    ensures m.Keys == set x | x in names
  {
    if names == [] then map[] else map[names[0] := vals[0]] + Zip(names[1..], vals[1..])
  }

  lemma {:induction false} CaptureInstantiated(segs: seq<Segment>, vals: seq<string>)
    requires |vals| == |ParamNames(segs)|
    requires forall i :: 0 <= i < |vals| ==> vals[i] != ""
    ensures Capture(segs, Instantiate(segs, vals)) == Some(Zip(ParamNames(segs), vals))
  {
    if segs != [] {
      var parts := Instantiate(segs, vals);
      if segs[0].Param? {
        CaptureInstantiated(segs[1..], vals[1..]);
        assert parts[1..] == Instantiate(segs[1..], vals[1..]);
      } else {
        CaptureInstantiated(segs[1..], vals);
        assert parts[1..] == Instantiate(segs[1..], vals);
      }
    }
  }

  /**
    A pathname that repeats the pattern's literal segments and puts one
    non-empty, `/`-free value into each placeholder matches, and each
    placeholder name is bound to its value.
  */
  lemma MatchInstantiated(p: Path, vals: seq<string>)
    requires |p.segments| >= 1
    requires forall i :: 0 <= i < |p.segments| ==> '/' !in SegmentText(p.segments[i])
    requires |vals| == |ParamNames(p.segments)|
    requires forall i :: 0 <= i < |vals| ==> vals[i] != "" && '/' !in vals[i]
    ensures Test(p, Join(Instantiate(p.segments, vals))) == Some(Zip(ParamNames(p.segments), vals))
  {
    var parts := Instantiate(p.segments, vals);
    InstantiateSlashFree(p.segments, vals);
    SplitJoin(parts);
    CaptureInstantiated(p.segments, vals);
  }

  lemma {:induction false} InstantiateSlashFree(segs: seq<Segment>, vals: seq<string>)
    requires |vals| == |ParamNames(segs)|
    requires forall i :: 0 <= i < |segs| ==> '/' !in SegmentText(segs[i])
    requires forall i :: 0 <= i < |vals| ==> '/' !in vals[i]
    ensures forall i :: 0 <= i < |segs| ==> '/' !in Instantiate(segs, vals)[i]
  {
    if segs != [] {
      var parts := Instantiate(segs, vals);
      if segs[0].Param? {
        InstantiateSlashFree(segs[1..], vals[1..]);
        assert parts[1..] == Instantiate(segs[1..], vals[1..]);
      } else {
        InstantiateSlashFree(segs[1..], vals);
        assert parts[1..] == Instantiate(segs[1..], vals);
        assert SegmentText(segs[0]) == segs[0].text;
      }
      forall i | 0 <= i < |segs| ensures '/' !in parts[i] {
        if i > 0 { assert segs[1..][i - 1] == segs[i]; }
      }
    }
  }

  /** With distinct placeholder names, each name is bound to the value put in its position. */
  lemma {:induction false} ZipBinds(names: seq<string>, vals: seq<string>, k: nat)
    requires |names| == |vals| && k < |names|
    requires forall i, j :: 0 <= i < j < |names| ==> names[i] != names[j]
    ensures names[k] in Zip(names, vals) && Zip(names, vals)[names[k]] == vals[k]
  {
    if k > 0 {
      ZipBinds(names[1..], vals[1..], k - 1);
      assert names[k] != names[0];
    }
  }
}
