// Canonical module paths: separators and case folded, "." and ".." resolved.
module ModulePath {

  // ---- Text ------------------------------------------------------------------------------

  function FoldChar(c: char): char {
    if c == '\\' then '/'
    else if 'A' <= c <= 'Z' then (c as int - 'A' as int + 'a' as int) as char
    else c
  }

  function Fold(s: string): (r: string)
    ensures |r| == |s| && forall i :: 0 <= i < |s| ==> r[i] == FoldChar(s[i])
  {
    if s == "" then "" else Fold(s[..|s| - 1]) + [FoldChar(s[|s| - 1])]
  }

  predicate Folded(s: string) {
    forall i :: 0 <= i < |s| ==> FoldChar(s[i]) == s[i]
  }

  lemma FoldedIsFixed(s: string)
    ensures Folded(Fold(s)) && (Folded(s) ==> Fold(s) == s)
  {
  }

  /** The pieces between slashes; there is always at least one. */
  function Split(s: string): (pieces: seq<string>)
    ensures |pieces| >= 1
  {
    if s == "" then [""]
    else if s[0] == '/' then [""] + Split(s[1..])
    else var rest := Split(s[1..]); [[s[0]] + rest[0]] + rest[1..]
  }

  predicate Plain(piece: string) {
    piece != "" && forall i :: 0 <= i < |piece| ==> piece[i] != '/'
  }

  lemma {:induction false} SplitPlain(piece: string)
    requires forall i :: 0 <= i < |piece| ==> piece[i] != '/'
    ensures Split(piece) == [piece]
  {
    if piece != "" {
      SplitPlain(piece[1..]);
      assert piece == [piece[0]] + piece[1..];
    }
  }

  lemma {:induction false} SplitFirst(piece: string, rest: string)
    requires forall i :: 0 <= i < |piece| ==> piece[i] != '/'
    ensures Split(piece + "/" + rest) == [piece] + Split(rest)
  {
    var s := piece + "/" + rest;
    if piece == "" {
      assert s[1..] == rest;
    } else {
      SplitFirst(piece[1..], rest);
      assert s[1..] == piece[1..] + "/" + rest;
      assert piece == [piece[0]] + piece[1..];
    }
  }

  // ---- The head of a path ------------------------------------------------------------------

  /** How long the prefix is, how many segments after it `..` may not remove, and
      whether the path is absolute. */
  datatype Head = Head(length: nat, guarded: nat, absolute: bool)

  function Detect(s: string): (h: Head)
    ensures h.length <= |s|
  {
    if |s| >= 2 && s[1] == ':' then
      if |s| > 2 && s[2] == '/' then Head(3, 0, true) else Head(2, 0, false)
    else if |s| >= 2 && s[0] == '/' && s[1] == '/' then Head(2, 2, true)
    else if |s| > 0 && s[0] == '/' then Head(1, 0, true)
    else Head(0, 0, false)
  }

  // ---- Segments ------------------------------------------------------------------------------

  function Step(segments: seq<string>, piece: string, h: Head): seq<string> {
    if piece == "" || piece == "." then segments
    else if piece == ".." then
      if |segments| > h.guarded && segments[|segments| - 1] != ".." then segments[..|segments| - 1]
      else if !h.absolute then segments + [piece]
      else segments
    else segments + [piece]
  }

  function Resolve(segments: seq<string>, pieces: seq<string>, h: Head): seq<string>
    decreases |pieces|
  {
    if pieces == [] then segments else Resolve(Step(segments, pieces[0], h), pieces[1..], h)
  }

  /** No separator, no empty segment, no "."; and ".." only as a leading run of a
      path that is not absolute. */
  predicate Canonical(segments: seq<string>, absolute: bool) {
    && (forall i :: 0 <= i < |segments| ==> Plain(segments[i]) && segments[i] != ".")
    && (forall i :: 0 <= i < |segments| && segments[i] == ".." ==>
          !absolute && forall j :: 0 <= j < i ==> segments[j] == "..")
  }

  predicate AllNoSlash(pieces: seq<string>) {
    forall i :: 0 <= i < |pieces| ==> forall k :: 0 <= k < |pieces[i]| ==> pieces[i][k] != '/'
  }

  lemma {:induction false} SplitNoSlash(s: string)
    ensures AllNoSlash(Split(s))
  {
    if s != "" {
      SplitNoSlash(s[1..]);
    }
  }

  lemma StepCanonical(segments: seq<string>, piece: string, h: Head)
    requires Canonical(segments, h.absolute) && (h.guarded > 0 ==> h.absolute)
    requires forall k :: 0 <= k < |piece| ==> piece[k] != '/'
    ensures Canonical(Step(segments, piece, h), h.absolute)
  {
    var next := Step(segments, piece, h);
    if piece == ".." && segments != [] && segments[|segments| - 1] == ".." {
      assert forall j :: 0 <= j < |segments| - 1 ==> segments[j] == "..";
    }
  }

  lemma {:induction false} ResolveCanonical(segments: seq<string>, pieces: seq<string>, h: Head)
    requires Canonical(segments, h.absolute) && AllNoSlash(pieces) && (h.guarded > 0 ==> h.absolute)
    ensures Canonical(Resolve(segments, pieces, h), h.absolute)
    decreases |pieces|
  {
    if pieces != [] {
      StepCanonical(segments, pieces[0], h);
      ResolveCanonical(Step(segments, pieces[0], h), pieces[1..], h);
    }
  }

  /** What is canonical already is resolved to itself. */
  lemma {:induction false} ResolveFixed(segments: seq<string>, pieces: seq<string>, h: Head)
    requires Canonical(segments + pieces, h.absolute)
    ensures Resolve(segments, pieces, h) == segments + pieces
    decreases |pieces|
  {
    if pieces == [] {
      assert segments + pieces == segments;
    } else {
      var all := segments + pieces;
      assert all[|segments|] == pieces[0];
      assert segments + [pieces[0]] + pieces[1..] == all;
      if pieces[0] == ".." && segments != [] {
        assert all[|segments| - 1] == segments[|segments| - 1];
      }
      ResolveFixed(segments + [pieces[0]], pieces[1..], h);
    }
  }

  /** The server and the share of a network path are never removed. */
  lemma {:induction false} GuardedStay(segments: seq<string>, pieces: seq<string>, h: Head, n: nat)
    requires n <= |segments| && n <= h.guarded
    ensures n <= |Resolve(segments, pieces, h)| && Resolve(segments, pieces, h)[..n] == segments[..n]
    decreases |pieces|
  {
    if pieces != [] {
      var next := Step(segments, pieces[0], h);
      assert n <= |next| && next[..n] == segments[..n];
      GuardedStay(next, pieces[1..], h, n);
    }
  }

  // ---- Joining ------------------------------------------------------------------------------------

  predicate EndsIn(s: string, c: char) {
    s != "" && s[|s| - 1] == c
  }

  /** Segments are joined with a slash, but not after a slash or a colon. */
  function Join(result: string, segments: seq<string>): string
    decreases |segments|
  {
    if segments == [] then result
    else
      var gap := if result != "" && !EndsIn(result, '/') && !EndsIn(result, ':') then "/" else "";
      Join(result + gap + segments[0], segments[1..])
  }

  function Slashed(segments: seq<string>): string {
    if segments == [] then "" else if |segments| == 1 then segments[0] else segments[0] + "/" + Slashed(segments[1..])
  }

  /** What joining makes of the segments: one that ends in a colon swallows the next. */
  function Merge(segments: seq<string>): (m: seq<string>)
    ensures m == [] <==> segments == []
    decreases |segments|
  {
    if |segments| <= 1 then segments
    else if EndsIn(segments[0], ':') then Merge([segments[0] + segments[1]] + segments[2..])
    else [segments[0]] + Merge(segments[1..])
  }

  predicate AllPlain(segments: seq<string>) {
    forall i :: 0 <= i < |segments| ==> Plain(segments[i])
  }

  lemma {:induction false} MergeAfter(x: string, y: string, rest: seq<string>)
    requires Plain(y) && AllPlain(rest)
    ensures Slashed(Merge([x + y] + rest)) == x + Slashed(Merge([y] + rest))
    decreases |rest|
  {
    var longer, shorter := [x + y] + rest, [y] + rest;
    if rest == [] {
    } else if EndsIn(y, ':') {
      assert longer[2..] == rest[1..] && shorter[2..] == rest[1..];
      assert (x + y) + rest[0] == x + (y + rest[0]);
      MergeAfter(x, y + rest[0], rest[1..]);
    } else {
      assert longer[1..] == rest && shorter[1..] == rest;
      var m := Merge(rest);
      assert ([x + y] + m)[1..] == m && ([y] + m)[1..] == m;
      assert (x + y) + "/" + Slashed(m) == x + (y + "/" + Slashed(m));
    }
  }

  predicate Ended(result: string) {
    result == "" || EndsIn(result, '/') || EndsIn(result, ':')
  }

  lemma JoinFirst(result: string, first: string, rest: seq<string>)
    ensures Ended(result) ==> Join(result, [first] + rest) == Join(result + first, rest)
    ensures !Ended(result) ==> Join(result, [first] + rest) == Join(result + "/" + first, rest)
  {
    assert ([first] + rest)[1..] == rest && result + "" == result;
  }

  lemma Regroup(x: string, y: string, z: string)
    ensures x + y + z == x + (y + z)
  {
  }

  lemma EndsAfter(result: string, first: string)
    requires Plain(first)
    ensures result + first != "" && (EndsIn(result + first, ':') <==> EndsIn(first, ':')) && !EndsIn(result + first, '/')
  {
  }

  lemma {:induction false} JoinMerges(result: string, segments: seq<string>)
    requires Ended(result) && AllPlain(segments)
    ensures Join(result, segments) == result + Slashed(Merge(segments))
    decreases |segments|, 0
  {
    if segments != [] {
      var first, rest := segments[0], segments[1..];
      assert segments == [first] + rest;
      JoinFirst(result, first, rest);
      if rest != [] {
        JoinRest(result, first, rest);
      }
    }
  }

  lemma {:induction false} JoinRest(result: string, first: string, rest: seq<string>)
    requires Plain(first) && rest != [] && AllPlain(rest)
    ensures Join(result + first, rest) == result + Slashed(Merge([first] + rest))
    decreases |rest|, 1
  {
    var m := Slashed(Merge(rest));
    assert rest == [rest[0]] + rest[1..];
    EndsAfter(result, first);
    if EndsIn(first, ':') {
      JoinMerges(result + first, rest);
      MergeAfter(first, rest[0], rest[1..]);
      MergeFirst(first, rest);
      Regroup(result, first, m);
    } else {
      JoinFirst(result + first, rest[0], rest[1..]);
      JoinFirst(result + first + "/", rest[0], rest[1..]);
      JoinMerges(result + first + "/", rest);
      MergeFirst(first, rest);
      Regroup(result, first + "/", m);
      Regroup(result, first, "/");
    }
  }

  lemma MergeFirst(first: string, rest: seq<string>)
    requires rest != []
    ensures EndsIn(first, ':') ==> Merge([first] + rest) == Merge([first + rest[0]] + rest[1..])
    ensures !EndsIn(first, ':') ==> Slashed(Merge([first] + rest)) == first + "/" + Slashed(Merge(rest))
  {
    var all, m := [first] + rest, Merge(rest);
    assert all[1..] == rest && all[2..] == rest[1..] && ([first] + m)[1..] == m;
  }

  predicate Merged(segments: seq<string>) {
    forall i :: 0 <= i < |segments| - 1 ==> !EndsIn(segments[i], ':')
  }

  lemma {:induction false} MergeIsCanonical(segments: seq<string>, absolute: bool)
    requires Canonical(segments, absolute)
    ensures Canonical(Merge(segments), absolute) && Merged(Merge(segments))
    ensures segments != [] && segments[0] != ".." ==> Merge(segments)[0] != ".."
    decreases |segments|
  {
    if |segments| > 1 {
      if EndsIn(segments[0], ':') {
        var joined := segments[0] + segments[1];
        assert joined[|segments[0]| - 1] == ':';
        MergeIsCanonical([joined] + segments[2..], absolute);
      } else {
        MergeIsCanonical(segments[1..], absolute);
        PrependCanonical(segments[0], segments[1..], absolute);
      }
    }
  }

  lemma PrependCanonical(first: string, rest: seq<string>, absolute: bool)
    requires rest != [] && Canonical([first] + rest, absolute) && !EndsIn(first, ':')
    requires Canonical(Merge(rest), absolute) && Merged(Merge(rest)) && (rest[0] != ".." ==> Merge(rest)[0] != "..")
    ensures Canonical([first] + Merge(rest), absolute) && Merged([first] + Merge(rest))
  {
    var all, m := [first] + rest, Merge(rest);
    var next := [first] + m;
    assert all[0] == first && all[1] == rest[0];
    forall i | 0 <= i < |next| && next[i] == ".."
      ensures !absolute && forall j :: 0 <= j < i ==> next[j] == ".."
    {
      if i > 0 {
        assert m[i - 1] == ".." && m[0] == "..";
      }
    }
  }

  lemma {:induction false} SplitSlashed(segments: seq<string>)
    requires segments != [] && AllPlain(segments)
    ensures Split(Slashed(segments)) == segments
  {
    if |segments| == 1 {
      SplitPlain(segments[0]);
    } else {
      SplitSlashed(segments[1..]);
      SplitFirst(segments[0], Slashed(segments[1..]));
    }
  }

  // ---- Normalizing ----------------------------------------------------------------------------------

  function Segments(path: string): seq<string> {
    var s := Fold(path);
    Resolve([], Split(s[Detect(s).length..]), Detect(s))
  }

  function Norm(path: string): string {
    var s := Fold(path);
    Join(s[..Detect(s).length], Segments(path))
  }

  lemma ResolveFront(segments: seq<string>, piece: string, rest: seq<string>, h: Head)
    ensures Resolve(segments, [piece] + rest, h) == Resolve(Step(segments, piece, h), rest, h)
  {
    assert ([piece] + rest)[1..] == rest;
  }

  /** The loop of the program: one piece at a time, from one slash to the next. */
  method NormalizeModulePath(path: string) returns (r: string)
    ensures r == Norm(path)
  {
    var s := Fold(path);
    var h := Detect(s);
    var segments: seq<string> := [];
    var position := h.length;
    while true
      invariant position <= |s|
      invariant Resolve(segments, Split(s[position..]), h) == Segments(path)
      decreases |s| - position
    {
      var end := FindSlash(s, position);
      PieceAt(segments, s, position, end, h);
      segments := Step(segments, s[position..end], h);
      if end == |s| {
        break;
      }
      position := end + 1;
    }
    r := Join(s[..h.length], segments);
  }

  lemma PieceAt(segments: seq<string>, s: string, position: nat, end: nat, h: Head)
    requires position <= end <= |s| && (end < |s| ==> s[end] == '/')
    requires forall k :: position <= k < end ==> s[k] != '/'
    ensures Resolve(segments, Split(s[position..]), h) ==
      if end == |s| then Step(segments, s[position..end], h)
      else Resolve(Step(segments, s[position..end], h), Split(s[end + 1..]), h)
  {
    var piece := s[position..end];
    if end == |s| {
      SplitPlain(piece);
      assert s[position..] == piece && [piece] + [] == [piece];
      ResolveFront(segments, piece, [], h);
    } else {
      assert s[position..] == piece + "/" + s[end + 1..];
      SplitFirst(piece, s[end + 1..]);
      ResolveFront(segments, piece, Split(s[end + 1..]), h);
    }
  }

  method FindSlash(s: string, from: nat) returns (end: nat)
    requires from <= |s|
    ensures from <= end <= |s| && (end < |s| ==> s[end] == '/')
    ensures forall k :: from <= k < end ==> s[k] != '/'
  {
    end := from;
    while end < |s| && s[end] != '/'
      invariant from <= end <= |s|
      invariant forall k :: from <= k < end ==> s[k] != '/'
    {
      end := end + 1;
    }
  }

  /** What normalizing leaves: no separator twice in a row, no empty or "." segment,
      ".." only as a leading run of a path that is not absolute. */
  lemma SegmentsCanonical(path: string)
    ensures Canonical(Segments(path), Detect(Fold(path)).absolute)
  {
    var s := Fold(path);
    SplitNoSlash(s[Detect(s).length..]);
    ResolveCanonical([], Split(s[Detect(s).length..]), Detect(s));
  }

  // ---- Reading on from a directory ----------------------------------------------------------------

  lemma {:induction false} SplitAppend(s: string, x: string, t: string)
    requires s == x + "/" + t
    ensures Split(s) == Split(x) + Split(t)
  {
    if x == "" {
      assert s[1..] == t;
    } else {
      assert s[0] == x[0] && s[1..] == x[1..] + "/" + t;
      SplitAppend(s[1..], x[1..], t);
    }
  }

  lemma {:induction false} ResolveAppend(segments: seq<string>, a: seq<string>, b: seq<string>, h: Head)
    ensures Resolve(segments, a + b, h) == Resolve(Resolve(segments, a, h), b, h)
    decreases |a|
  {
    if a == [] {
      assert a + b == b;
    } else {
      assert (a + b)[1..] == a[1..] + b;
      ResolveAppend(Step(segments, a[0], h), a[1..], b, h);
    }
  }

  lemma FoldAppend(a: string, b: string)
    ensures Fold(a + b) == Fold(a) + Fold(b)
  {
  }

  /** A path that ends in a separator and is no bare root: what follows it does not
      change how it starts. */
  predicate Directory(path: string) {
    |path| >= 2 && (path[|path| - 1] == '/' || path[|path| - 1] == '\\')
  }

  lemma BodyContinues(s: string, t: string, h: Head)
    requires |s| >= 2 && s[|s| - 1] == '/' && h == Detect(s)
    ensures Detect(s + t) == h
    ensures Resolve([], Split((s + t)[h.length..]), h) == Resolve(Resolve([], Split(s[h.length..]), h), Split(t), h)
  {
    var body := s[h.length..];
    assert (s + t)[h.length..] == body + t;
    PiecesContinue(body, t, body + t, h);
  }

  lemma PiecesContinue(body: string, t: string, all: string, h: Head)
    requires (body == "" || body[|body| - 1] == '/') && all == body + t
    ensures Resolve([], Split(all), h) == Resolve(Resolve([], Split(body), h), Split(t), h)
  {
    if body == "" {
      assert all == t && Split(body) == [""] && [""][1..] == [];
    } else {
      var x := body[..|body| - 1];
      SplitAppend(body, x, "");
      SplitAppend(all, x, t);
      ResolveAppend([], Split(x), [""], h);
      ResolveAppend([], Split(x), Split(t), h);
      assert [""][1..] == [];
    }
  }

  /** A path read on from a directory: its segments are the directory's, and then
      the rest is taken in piece by piece. */
  lemma Continues(directory: string, rest: string)
    requires Directory(directory)
    ensures Detect(Fold(directory + rest)) == Detect(Fold(directory))
    ensures Fold(directory + rest)[..Detect(Fold(directory)).length] == Fold(directory)[..Detect(Fold(directory)).length]
    ensures Segments(directory + rest) == Resolve(Segments(directory), Split(Fold(rest)), Detect(Fold(directory)))
  {
    FoldAppend(directory, rest);
    ReadsOn(directory, directory + rest, Fold(directory), Fold(rest));
  }

  lemma ReadsOn(directory: string, path: string, s: string, t: string)
    requires Fold(directory) == s && Fold(path) == s + t && |s| >= 2 && s[|s| - 1] == '/'
    ensures Detect(s + t) == Detect(s) && (s + t)[..Detect(s).length] == s[..Detect(s).length]
    ensures Segments(path) == Resolve(Segments(directory), Split(t), Detect(s))
  {
    BodyContinues(s, t, Detect(s));
  }

  lemma {:induction false} SameNorm(directory: string, first: string, second: string)
    requires Directory(directory)
    requires Resolve(Segments(directory), Split(Fold(first)), Detect(Fold(directory)))
          == Resolve(Segments(directory), Split(Fold(second)), Detect(Fold(directory)))
    ensures Norm(directory + first) == Norm(directory + second)
  {
    Continues(directory, first);
    Continues(directory, second);
  }

  /** A name of a file or a directory: no separator, and not "." or "..". */
  predicate IsName(name: string) {
    && name != "" && name != "." && name != ".."
    && forall i :: 0 <= i < |name| ==> name[i] != '/' && name[i] != '\\'
  }

  lemma NameFoldsTo(name: string, f: string)
    requires IsName(name) && |f| == |name| && forall i :: 0 <= i < |f| ==> f[i] == FoldChar(name[i])
    ensures Plain(f) && f != "." && f != ".."
  {
    assert forall i :: 0 <= i < |f| && f[i] == '.' ==> name[i] == '.';
    assert |name| == 1 ==> name == [name[0]];
    assert |name| == 2 ==> name == [name[0], name[1]];
  }

  lemma NameFolds(name: string)
    requires IsName(name)
    ensures Plain(Fold(name)) && Fold(name) != "." && Fold(name) != ".."
    ensures Split(Fold(name)) == [Fold(name)]
  {
    var f := Fold(name);
    NameFoldsTo(name, f);
    SplitPlain(f);
  }

  /** A network path: it starts with two separators. */
  predicate OnNetwork(path: string) {
    |path| >= 2 && (path[0] == '/' || path[0] == '\\') && (path[1] == '/' || path[1] == '\\')
  }

  /** A path from a root: it starts with a separator, or a drive colon and one. */
  predicate FromRoot(path: string) {
    if |path| >= 2 && path[1] == ':' then |path| >= 3 && (path[2] == '/' || path[2] == '\\')
    else path != "" && (path[0] == '/' || path[0] == '\\')
  }

  lemma HeadIs(path: string)
    ensures Detect(Fold(path)).absolute <==> FromRoot(path)
    ensures Detect(Fold(path)).guarded == if OnNetwork(path) then 2 else 0
    ensures Detect(Fold(path)).length == HeadLength(path)
  {
    HeadFolds(path, Fold(path));
  }

  function HeadLength(path: string): nat {
    if |path| >= 2 && path[1] == ':' then (if FromRoot(path) then 3 else 2)
    else if OnNetwork(path) then 2 else if FromRoot(path) then 1 else 0
  }

  lemma HeadFolds(path: string, s: string)
    requires |s| == |path| && forall i :: 0 <= i < |s| ==> s[i] == FoldChar(path[i])
    ensures Detect(s).absolute <==> FromRoot(path)
    ensures Detect(s).guarded == if OnNetwork(path) then 2 else 0
    ensures Detect(s).length == HeadLength(path)
  {
  }

  /** How a path starts stays: its drive, its root, the two slashes of a network. */
  lemma StartStays(path: string)
    ensures |path| >= 2 && path[1] == ':' ==> |Norm(path)| >= 2 && Norm(path)[..2] == Fold(path[..2])
    ensures |path| >= 2 && path[1] == ':' && FromRoot(path) ==> |Norm(path)| >= 3 && Norm(path)[2] == '/'
    ensures OnNetwork(path) ==> |Norm(path)| >= 2 && Norm(path)[..2] == "//"
    ensures FromRoot(path) && !(|path| >= 2 && path[1] == ':') ==> Norm(path) != "" && Norm(path)[0] == '/'
  {
    HeadIs(path);
    var s, n := Fold(path), Detect(Fold(path)).length;
    JoinStarts(s[..n], Segments(path));
    var r := Norm(path);
    assert forall i :: 0 <= i < n ==> r[i] == r[..n][i] == s[i] == FoldChar(path[i]);
    if |path| >= 2 && path[1] == ':' {
      assert r[..2] == Fold(path[..2]);
    }
  }

  lemma {:induction false} JoinStarts(result: string, segments: seq<string>)
    ensures result <= Join(result, segments)
    decreases |segments|
  {
    if segments != [] {
      var gap := if result != "" && !EndsIn(result, '/') && !EndsIn(result, ':') then "/" else "";
      JoinStarts(result + gap + segments[0], segments[1..]);
    }
  }

  /** A name is one more segment. */
  lemma NameAdds(directory: string, name: string)
    requires Directory(directory) && IsName(name)
    ensures Segments(directory + name) == Segments(directory) + [Fold(name)]
  {
    Continues(directory, name);
    NameFolds(name);
    ResolveFront(Segments(directory), Fold(name), [], Detect(Fold(directory)));
    assert [Fold(name)] + [] == [Fold(name)];
  }

  /** ".." undoes the name before it, unless that is the server or the share of a
      network path. */
  lemma ParentUndoes(directory: string, name: string, rest: string)
    requires Directory(directory) && IsName(name)
    requires OnNetwork(directory) ==> |Segments(directory)| >= 2
    ensures Norm(directory + (name + "/../" + rest)) == Norm(directory + rest)
  {
    HeadIs(directory);
    NameFolds(name);
    PiecesOfDetour(name, rest);
    DetourPieces(Segments(directory), Fold(name), Split(Fold(rest)), Detect(Fold(directory)));
    SameNorm(directory, name + "/../" + rest, rest);
  }

  lemma PiecesOfDetour(name: string, rest: string)
    requires IsName(name)
    ensures Split(Fold(name + "/../" + rest)) == [Fold(name)] + ([".."] + Split(Fold(rest)))
  {
    NameFolds(name);
    ParentPiece(rest);
    assert name + "/../" + rest == name + "/" + ("../" + rest);
    FoldAppend(name + "/", "../" + rest);
    FoldAppend(name, "/");
    SplitFirst(Fold(name), Fold("../" + rest));
  }

  lemma DetourPieces(segments: seq<string>, f: string, tail: seq<string>, h: Head)
    requires Plain(f) && f != "." && f != ".." && |segments| >= h.guarded
    ensures Resolve(segments, [f] + ([".."] + tail), h) == Resolve(segments, tail, h)
  {
    ResolveFront(segments, f, [".."] + tail, h);
    ResolveFront(segments + [f], "..", tail, h);
    assert (segments + [f])[..|segments|] == segments;
  }

  lemma ParentPiece(rest: string)
    ensures Fold("../" + rest) == ".." + "/" + Fold(rest) && Split(Fold("../" + rest)) == [".."] + Split(Fold(rest))
  {
    FoldAppend("../", rest);
    assert Fold("../") == "../";
    assert "../" + Fold(rest) == ".." + "/" + Fold(rest);
    SplitFirst("..", Fold(rest));
  }

  /** It removes nothing at a root, nor of the server and the share. */
  lemma ParentStops(directory: string, rest: string)
    requires Directory(directory) && FromRoot(directory)
    requires if OnNetwork(directory) then |Segments(directory)| <= 2 else Segments(directory) == []
    ensures Norm(directory + ("../" + rest)) == Norm(directory + rest)
  {
    HeadIs(directory);
    ParentPiece(rest);
    ResolveFront(Segments(directory), "..", Split(Fold(rest)), Detect(Fold(directory)));
    SameNorm(directory, "../" + rest, rest);
  }

  /** And a path that is not from a root keeps each ".." that has nothing to undo. */
  lemma ParentStaysOpen(directory: string)
    requires Directory(directory) && !FromRoot(directory)
    requires forall i :: 0 <= i < |Segments(directory)| ==> Segments(directory)[i] == ".."
    ensures Segments(directory + "..") == Segments(directory) + [".."]
  {
    HeadIs(directory);
    Continues(directory, "..");
    assert Fold("..") == "..";
    SplitPlain("..");
    assert [".."] + [] == [".."];
    ResolveFront(Segments(directory), "..", [], Detect(Fold(directory)));
  }

  /** "." and doubled separators are skipped. */
  lemma NothingAdds(directory: string, rest: string)
    requires Directory(directory)
    ensures Norm(directory + ("./" + rest)) == Norm(directory + ("/" + rest)) == Norm(directory + rest)
  {
    var h, tail := Detect(Fold(directory)), Split(Fold(rest));
    FoldAppend("./", rest);
    FoldAppend("/", rest);
    assert Fold("./") == "./" && Fold("/") == "/";
    assert "./" + Fold(rest) == "." + "/" + Fold(rest) && "/" + Fold(rest) == "" + "/" + Fold(rest);
    SplitFirst(".", Fold(rest));
    SplitFirst("", Fold(rest));
    ResolveFront(Segments(directory), ".", tail, h);
    ResolveFront(Segments(directory), "", tail, h);
    SameNorm(directory, "./" + rest, rest);
    SameNorm(directory, "/" + rest, rest);
  }

  /** Segments that do not end in a colon stand in the result with single slashes
      between them, behind the start of the path. */
  lemma NormIsJoined(path: string)
    requires forall i :: 0 <= i < |Segments(path)| ==> !EndsIn(Segments(path)[i], ':')
    ensures Norm(path) == Fold(path)[..Detect(Fold(path)).length] + Slashed(Segments(path))
  {
    SegmentsCanonical(path);
    JoinMerges(Fold(path)[..Detect(Fold(path)).length], Segments(path));
    MergeFixed(Segments(path));
  }

  /** Every character is one of a kind. */
  predicate Over(s: string, kind: char -> bool) {
    forall i :: 0 <= i < |s| ==> kind(s[i])
  }

  predicate AllOver(segments: seq<string>, kind: char -> bool) {
    forall i :: 0 <= i < |segments| ==> Over(segments[i], kind)
  }

  lemma {:induction false} SplitOver(s: string, kind: char -> bool)
    requires Over(s, kind)
    ensures AllOver(Split(s), kind)
  {
    if s != "" {
      SplitOver(s[1..], kind);
    }
  }

  lemma {:induction false} ResolveOver(segments: seq<string>, pieces: seq<string>, h: Head, kind: char -> bool)
    requires AllOver(segments, kind) && AllOver(pieces, kind)
    ensures AllOver(Resolve(segments, pieces, h), kind)
    decreases |pieces|
  {
    if pieces != [] {
      ResolveOver(Step(segments, pieces[0], h), pieces[1..], h, kind);
    }
  }

  lemma {:induction false} JoinOver(result: string, segments: seq<string>, kind: char -> bool)
    requires kind('/') && Over(result, kind) && AllOver(segments, kind)
    ensures Over(Join(result, segments), kind)
    decreases |segments|
  {
    if segments != [] {
      var gap := if result != "" && !EndsIn(result, '/') && !EndsIn(result, ':') then "/" else "";
      JoinOver(result + gap + segments[0], segments[1..], kind);
    }
  }

  /** Normalizing brings in no characters but slashes. */
  lemma NormOver(path: string, kind: char -> bool)
    requires kind('/') && Over(Fold(path), kind)
    ensures Over(Norm(path), kind)
  {
    var s := Fold(path);
    SplitOver(s[Detect(s).length..], kind);
    ResolveOver([], Split(s[Detect(s).length..]), Detect(s), kind);
    JoinOver(s[..Detect(s).length], Segments(path), kind);
  }

  lemma NormFolded(path: string)
    ensures Folded(Norm(path))
  {
    var kind := (c: char) => FoldChar(c) == c;
    FoldedIsFixed(path);
    assert Over(Fold(path), kind);
    NormOver(path, kind);
    assert forall i :: 0 <= i < |Norm(path)| ==> kind(Norm(path)[i]);
  }

  lemma {:induction false} MergeFixed(segments: seq<string>)
    requires Merged(segments)
    ensures Merge(segments) == segments
  {
    if |segments| > 1 {
      assert !EndsIn(segments[0], ':');
      MergeFixed(segments[1..]);
      assert [segments[0]] + segments[1..] == segments;
    }
  }

  lemma CanonicalPlain(segments: seq<string>, absolute: bool)
    requires Canonical(segments, absolute)
    ensures AllPlain(segments)
  {
  }

  /** A string that is a head and canonical segments, none of them to be merged, is
      normal. */
  lemma NormalFixed(r: string, m: seq<string>)
    requires Folded(r) && Canonical(m, Detect(r).absolute) && Merged(m)
    requires r[Detect(r).length..] == Slashed(m)
    ensures Norm(r) == r
  {
    var h := Detect(r);
    FoldedIsFixed(r);
    BodyFixed(m, h);
    NormFrom(r, h, r[..h.length], Slashed(m), m);
    MergeFixed(m);
    Halves(r, h.length);
  }

  /** A folded path by its start and by what its body resolves to. */
  lemma NormFrom(r: string, h: Head, start: string, body: string, m: seq<string>)
    requires Fold(r) == r && h == Detect(r) && start == r[..h.length] && body == r[h.length..]
    requires Resolve([], Split(body), h) == m && Canonical(m, h.absolute)
    ensures Norm(r) == start + Slashed(Merge(m))
  {
    JoinMerges(start, m);
  }

  lemma Halves(r: string, n: nat)
    requires n <= |r|
    ensures r[..n] + r[n..] == r
  {
  }

  lemma BodyFixed(m: seq<string>, h: Head)
    requires Canonical(m, h.absolute)
    ensures Resolve([], Split(Slashed(m)), h) == m
  {
    if m == [] {
      assert Split("") == [""] && [""][1..] == [];
    } else {
      SplitSlashed(m);
      assert [] + m == m;
      ResolveFixed([], m, h);
    }
  }

  /** What a normalized path consists of. */
  lemma NormParts(path: string) returns (m: seq<string>)
    ensures Canonical(m, Detect(Fold(path)).absolute) && Merged(m)
    ensures Norm(path) == Fold(path)[..Detect(Fold(path)).length] + Slashed(m)
  {
    SegmentsCanonical(path);
    m := Merge(Segments(path));
    MergeIsCanonical(Segments(path), Detect(Fold(path)).absolute);
    JoinMerges(Fold(path)[..Detect(Fold(path)).length], Segments(path));
  }

  lemma SlashedStarts(m: seq<string>)
    requires m != [] && AllPlain(m)
    ensures |Slashed(m)| >= |m[0]| && Slashed(m)[..|m[0]|] == m[0]
    ensures |Slashed(m)| > |m[0]| <==> |m| > 1
    ensures |m| > 1 ==> Slashed(m)[|m[0]|] == '/' && Slashed(m)[|m[0]| + 1..] == Slashed(m[1..])
  {
  }

  /** A path whose second character is a colon followed by a "." segment. */
  predicate DotAfterColon(r: string) {
    |r| >= 3 && r[1] == ':' && r[2] == '.' && (|r| == 3 || r[3] == '/')
  }

  /** The head is found again, unless a segment has put a colon second. */
  lemma SameHead(path: string, m: seq<string>)
    requires var s := Fold(path); Norm(path) == s[..Detect(s).length] + Slashed(m) && Canonical(m, Detect(s).absolute)
    requires Detect(Fold(path)).length >= 2 || |Norm(path)| < 2 || Norm(path)[1] != ':'
    ensures Detect(Norm(path)) == Detect(Fold(path)) && !DotAfterColon(Norm(path))
  {
    HeadKept(Fold(path), Detect(Fold(path)), Norm(path), m);
  }

  lemma HeadKept(s: string, h: Head, r: string, m: seq<string>)
    requires h == Detect(s) && r == s[..h.length] + Slashed(m) && Canonical(m, h.absolute)
    requires h.length >= 2 || |r| < 2 || r[1] != ':'
    ensures Detect(r) == h && !DotAfterColon(r)
  {
    CanonicalPlain(m, h.absolute);
    if m != [] {
      SlashedStarts(m);
      assert r[h.length] == m[0][0];
      if h.length == 2 && s[1] == ':' && DotAfterColon(r) {
        FirstIsDot(r[2..], m);
      }
    }
  }

  lemma FirstIsDot(body: string, m: seq<string>)
    requires m != [] && AllPlain(m) && body == Slashed(m) && body[0] == '.' && (|body| == 1 || body[1] == '/')
    ensures m[0] == "."
  {
    SlashedStarts(m);
    assert m[0] == body[..|m[0]|];
  }

  /** A colon put second by a segment: what was the head is now part of a drive. */
  lemma NewHead(path: string, m: seq<string>)
    requires var s := Fold(path); Norm(path) == s[..Detect(s).length] + Slashed(m) && Canonical(m, Detect(s).absolute)
    requires Merged(m) && Detect(Fold(path)).length < 2 && |Norm(path)| >= 2 && Norm(path)[1] == ':'
    ensures Norm(Norm(path)) == Norm(path) <==> !DotAfterColon(Norm(path))
  {
    NormFolded(path);
    HeadFromSegment(Fold(path), Detect(Fold(path)), Norm(path), m);
  }

  lemma HeadFromSegment(s: string, h: Head, r: string, m: seq<string>)
    requires h == Detect(s) && h.length < 2 && r == s[..h.length] + Slashed(m) && Folded(r)
    requires Canonical(m, h.absolute) && Merged(m) && |r| >= 2 && r[1] == ':'
    ensures Norm(r) == r <==> !DotAfterColon(r)
  {
    var n := 2 - h.length;
    CanonicalPlain(m, h.absolute);
    SlashedStarts(m);
    assert |m[0]| >= n && r[1] == m[0][n - 1];
    var t := m[0][n..];
    if t == "" {
      assert EndsIn(m[0], ':') && |m| == 1;
      NormalFixed(r, []);
    } else {
      SegmentGoesOn(h.length, s[..h.length], r, m, t);
      TailNormal(r, t, m[1..]);
    }
  }

  /** The colon is inside the first segment, which goes on behind it. */
  lemma SegmentGoesOn(k: nat, start: string, r: string, m: seq<string>, t: string)
    requires k < 2 && |start| == k && r == start + Slashed(m) && m != [] && AllPlain(m) && |r| >= 2 && r[1] == ':'
    requires 2 - k < |m[0]| && t == m[0][2 - k..]
    ensures |r| > 2 && r[2] == t[0] && t[0] != '/' && r[2..] == Slashed([t] + m[1..]) && m[0] != ".."
  {
    SlashedStarts(m);
    TailIsBody(m, 2 - k, t);
    assert r[2..] == Slashed(m)[2 - k..];
    assert t[0] == m[0][2 - k] && r[1] == m[0][1 - k];
  }

  lemma MergedTail(m: seq<string>)
    requires m != [] && Merged(m)
    ensures Merged(m[1..])
  {
    var rest := m[1..];
    forall i | 0 <= i < |rest| - 1
      ensures !EndsIn(rest[i], ':')
    {
      assert rest[i] == m[i + 1];
    }
  }

  lemma TailNormal(r: string, t: string, rest: seq<string>)
    requires Folded(r) && Detect(r) == Head(2, 0, false) && r[2..] == Slashed([t] + rest) && Plain(t)
    requires Canonical(rest, false) && Merged([t] + rest) && (forall i :: 0 <= i < |rest| ==> rest[i] != "..")
    ensures Norm(r) == r <==> !DotAfterColon(r)
  {
    var m := [t] + rest;
    assert m[1..] == rest;
    if t == "." {
      MergedTail(m);
      DropsDot(r, rest);
    } else {
      ConsCanonical(t, rest);
      NormalFixed(r, m);
      CanonicalPlain(m, false);
      if DotAfterColon(r) {
        FirstIsDot(r[2..], m);
      }
    }
  }

  lemma TailIsBody(m: seq<string>, n: nat, t: string)
    requires m != [] && AllPlain(m) && n < |m[0]| && t == m[0][n..]
    ensures Slashed(m)[n..] == Slashed([t] + m[1..])
  {
    SlashedStarts(m);
    assert ([t] + m[1..])[1..] == m[1..];
    if |m| > 1 {
      assert m[0] + "/" + Slashed(m[1..]) == m[0][..n] + (t + "/" + Slashed(m[1..]));
    }
  }

  lemma ConsCanonical(t: string, rest: seq<string>)
    requires Plain(t) && t != "." && Canonical(rest, false) && (forall i :: 0 <= i < |rest| ==> rest[i] != "..")
    ensures Canonical([t] + rest, false)
  {
    var m := [t] + rest;
    assert forall i :: 0 < i < |m| ==> m[i] == rest[i - 1];
  }

  lemma DropsDot(r: string, rest: seq<string>)
    requires Folded(r) && Detect(r) == Head(2, 0, false) && r[2..] == Slashed(["."] + rest)
    requires Canonical(rest, false) && Merged(rest) && (forall i :: 0 <= i < |rest| ==> rest[i] != "..")
    ensures DotAfterColon(r) && Norm(r) != r
  {
    NormOfDot(r, rest);
    DotStarts(r, rest);
  }

  lemma DotStarts(r: string, rest: seq<string>)
    requires |r| >= 2 && r[1] == ':' && r[2..] == Slashed(["."] + rest)
    ensures DotAfterColon(r) && |r| > 2 + |Slashed(rest)|
  {
    var body := r[2..];
    assert (["."] + rest)[1..] == rest;
    assert body == if rest == [] then "." else "." + "/" + Slashed(rest);
    assert r[2] == body[0] && (|r| > 3 ==> r[3] == body[1]);
  }

  lemma NormOfDot(r: string, rest: seq<string>)
    requires Folded(r) && Detect(r) == Head(2, 0, false) && r[2..] == Slashed(["."] + rest)
    requires Canonical(rest, false) && Merged(rest)
    ensures Norm(r) == r[..2] + Slashed(rest)
  {
    CanonicalPlain(rest, false);
    FoldedIsFixed(r);
    DotResolves(rest, Detect(r));
    NormFrom(r, Detect(r), r[..2], r[2..], rest);
    MergeFixed(rest);
  }

  lemma DotResolves(rest: seq<string>, h: Head)
    requires Canonical(rest, h.absolute)
    ensures Resolve([], Split(Slashed(["."] + rest)), h) == rest
  {
    CanonicalPlain(rest, h.absolute);
    SplitSlashed(["."] + rest);
    ResolveFront([], ".", rest, h);
    assert [] + rest == rest;
    ResolveFixed([], rest, h);
  }

  /** Normalizing twice is normalizing once exactly when the result does not have a
      colon second and a "." segment right after it. */
  lemma IdempotentIff(path: string)
    ensures Norm(Norm(path)) == Norm(path) <==> !DotAfterColon(Norm(path))
  {
    var s, r := Fold(path), Norm(path);
    var m := NormParts(path);
    NormFolded(path);
    if Detect(s).length >= 2 || |r| < 2 || r[1] != ':' {
      SameHead(path, m);
      NormalFixed(r, m);
    } else {
      NewHead(path, m);
    }
  }

  /** So it is for every path whose only colon is a drive colon. */
  lemma DriveColonIdempotent(path: string)
    requires forall i :: 0 <= i < |path| && path[i] == ':' ==> i == 1
    ensures Norm(Norm(path)) == Norm(path)
  {
    IdempotentIff(path);
    var s, r := Fold(path), Norm(path);
    if Detect(s).length >= 2 {
      var m := NormParts(path);
      SameHead(path, m);
    } else {
      var kind := (c: char) => c != ':';
      assert Over(s, kind);
      NormOver(path, kind);
      assert |r| >= 2 ==> kind(r[1]);
    }
  }

  /** And so it is not in general: "./a:." becomes "a:.", and that becomes "a:". */
  lemma NotIdempotent()
    ensures Norm("./a:.") == "a:." && Norm(Norm("./a:.")) != Norm("./a:.")
  {
    var s := "./a:.";
    assert Fold(s) == s;
    SplitPlain("a:.");
    SplitFirst(".", "a:.");
    assert "." + "/" + "a:." == s;
    var h := Detect(s);
    assert Resolve([], [".", "a:."], h) == Resolve([], ["a:."], h) by {
      assert [".", "a:."][1..] == ["a:."];
    }
    assert Resolve([], ["a:."], h) == ["a:."] by {
      assert ["a:."][1..] == [] && [] + ["a:."] == ["a:."];
    }
    assert Norm(s) == "a:.";
    IdempotentIff(s);
  }
}
