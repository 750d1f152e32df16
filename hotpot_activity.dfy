/**
 * Activity files of the heatmap tool (projects/hotpot/src/activity.rs):
 * recognising an activity file by its name, and the Ramer–Douglas–Peucker
 * simplification applied to each tile's line before it is stored.
 *
 * The point-to-line distance is floating-point geometry; here it is a
 * parameter, any function from (point, line start, line end) to a real.
 */
module HotpotActivity {
  import opened Options

  // ---------------------------------------------------------------------
  // File names
  // ---------------------------------------------------------------------

  datatype FileType = Gpx | Fit | Tcx

  datatype CompressionType = None | Gzip

  /** The index of the last '.' in `s`, if any. */
  function LastDot(s: string): (r: Option<nat>)
    ensures r.Some? ==> r.value < |s| && s[r.value] == '.' && '.' !in s[r.value + 1..]
    ensures r.None? ==> '.' !in s
    decreases |s|
  {
    if s == [] then Option.None
    else if s[|s| - 1] == '.' then Some(|s| - 1)
    else
      var r := LastDot(s[..|s| - 1]);
      assert r.Some? ==> s[r.value + 1..] == s[..|s| - 1][r.value + 1..] + [s[|s| - 1]];
      assert r.None? ==> s == s[..|s| - 1] + [s[|s| - 1]];
      r
  }

  /** Dot-separated components joined back together. */
  function Join(parts: seq<string>): string
    requires parts != []
    decreases |parts|
  {
    if |parts| == 1 then parts[0] else Join(parts[..|parts| - 1]) + "." + parts[|parts| - 1]
  }

  predicate DotFree(parts: seq<string>)
  {
    forall i :: 0 <= i < |parts| ==> '.' !in parts[i]
  }

  /**
   * `str::split('.')`: the dot-free components of `s`, in order; `rsplit`
   * yields the same components from the last one back. There is always at
   * least one, possibly empty.
   */
  function Split(s: string): (parts: seq<string>)
    ensures parts != [] && DotFree(parts) && Join(parts) == s
    decreases |s|
  {
    match LastDot(s)
    case None => [s]
    case Some(i) =>
      var parts := Split(s[..i]) + [s[i + 1..]];
      assert parts[..|parts| - 1] == Split(s[..i]);
      assert s == s[..i] + "." + s[i + 1..];
      parts
  }

  /** The three activity formats by their extension. */
  function Classify(ext: string): (r: Option<FileType>)
    ensures r.Some? <==> ext in {"gpx", "fit", "tcx"}
    ensures r.Some? ==> Extension(r.value) == ext
  {
    match ext
    case "gpx" => Some(Gpx)
    case "fit" => Some(Fit)
    case "tcx" => Some(Tcx)
    case _ => Option.None
  }

  function Extension(t: FileType): string
  {
    match t
    case Gpx => "gpx"
    case Fit => "fit"
    case Tcx => "tcx"
  }

  function CompressionSuffix(c: CompressionType): string
  {
    match c
    case None => ""
    case Gzip => ".gz"
  }

  /**
   * `get_file_type`: the last component, or the one before it when the last
   * is `gz`, must be one of the three extensions.
   */
  function GetFileType(fileName: string): Option<(FileType, CompressionType)>
  {
    var parts := Split(fileName);
    var last := parts[|parts| - 1];
    if last == "gz" then
      if |parts| < 2 then Option.None
      else match Classify(parts[|parts| - 2])
        case Some(t) => Some((t, Gzip))
        case None => Option.None
    else match Classify(last)
      case Some(t) => Some((t, CompressionType.None))
      case None => Option.None
  }

  predicate EndsWith(s: string, tail: string)
  {
    |tail| <= |s| && s[|s| - |tail|..] == tail
  }

  /** Splitting is the inverse of joining dot-free components. */
  lemma {:induction false} SplitJoin(parts: seq<string>)
    requires parts != [] && DotFree(parts)
    ensures Split(Join(parts)) == parts
    decreases |parts|
  {
    var s := Join(parts);
    var n := |parts|;
    if n == 1 {
      assert LastDot(s).None?;
    } else {
      var init := parts[..n - 1];
      var prefix := Join(init);
      assert s == prefix + "." + parts[n - 1];
      var i := |prefix|;
      assert s[i] == '.' && s[i + 1..] == parts[n - 1] && s[..i] == prefix;
      LastDotIsLast(s, i);
      SplitJoin(init);
      assert parts == init + [parts[n - 1]];
    }
  }

  lemma LastDotIsLast(s: string, i: nat)
    requires i < |s| && s[i] == '.' && '.' !in s[i + 1..]
    ensures LastDot(s) == Some(i)
  {
  }

  /** The components of a name ending in `.x`, with `x` dot-free. */
  lemma SplitLast(s: string, x: string)
    requires '.' !in x && EndsWith(s, "." + x)
    ensures Split(s) == Split(s[..|s| - |x| - 1]) + [x]
  {
    var i := |s| - |x| - 1;
    assert s[i..] == "." + x;
    assert s[i] == '.' && s[i + 1..] == x;
    LastDotIsLast(s, i);
  }

  lemma PlainShape(fileName: string, t: FileType)
    requires GetFileType(fileName) == Some((t, CompressionType.None))
    ensures fileName == Extension(t) || EndsWith(fileName, "." + Extension(t))
  {
    var parts := Split(fileName);
    var n := |parts|;
    assert parts[n - 1] == Extension(t);
    if n > 1 {
      var tail := "." + Extension(t);
      assert fileName == Join(parts[..n - 1]) + tail;
      assert fileName[|fileName| - |tail|..] == tail;
    }
  }

  lemma GzipShape(fileName: string, t: FileType)
    requires GetFileType(fileName) == Some((t, Gzip))
    ensures fileName == Extension(t) + ".gz" || EndsWith(fileName, "." + Extension(t) + ".gz")
  {
    var parts := Split(fileName);
    var n := |parts|;
    assert parts[n - 1] == "gz" && parts[n - 2] == Extension(t);
    assert parts[..n - 1][..n - 2] == parts[..n - 2];
    if n == 2 {
      assert fileName == Join(parts[..1]) + "." + "gz";
    } else {
      var tail := "." + Extension(t) + ".gz";
      assert fileName == Join(parts[..n - 2]) + tail;
      assert fileName[|fileName| - |tail|..] == tail;
    }
  }

  lemma PlainByShape(fileName: string, t: FileType)
    requires fileName == Extension(t) || EndsWith(fileName, "." + Extension(t))
    ensures GetFileType(fileName) == Some((t, CompressionType.None))
  {
    if fileName == Extension(t) {
      SplitJoin([fileName]);
    } else {
      SplitLast(fileName, Extension(t));
    }
  }

  lemma GzipByShape(fileName: string, t: FileType)
    requires fileName == Extension(t) + ".gz" || EndsWith(fileName, "." + Extension(t) + ".gz")
    ensures GetFileType(fileName) == Some((t, Gzip))
  {
    var ext := Extension(t);
    var rest := fileName[..|fileName| - 3];
    assert fileName == rest + ".gz" by {
      assert fileName[|fileName| - 3..] == ".gz";
    }
    GzipOf(rest, t);
  }

  /** `rest.gz` is a gzipped activity file when `rest` is an uncompressed one. */
  lemma GzipOf(rest: string, t: FileType)
    requires rest == Extension(t) || EndsWith(rest, "." + Extension(t))
    ensures GetFileType(rest + ".gz") == Some((t, Gzip))
  {
    PlainByShape(rest, t);
    GzipKeepsFileType(rest, t);
  }

  /**
   * A name is recognised exactly when it is an extension (followed by
   * `.gz` for Gzip), or ends with one after a dot: `bar.gpx.gz` is read as
   * a gzipped `bar.gpx`, a bare `gpx` is a GPX file, and nothing else is.
   */
  lemma FileTypeByName(fileName: string, t: FileType, c: CompressionType)
    ensures GetFileType(fileName) == Some((t, c)) <==>
      fileName == Extension(t) + CompressionSuffix(c) || EndsWith(fileName, "." + Extension(t) + CompressionSuffix(c))
  {
    if c == Gzip {
      if GetFileType(fileName) == Some((t, c)) {
        GzipShape(fileName, t);
      }
      if fileName == Extension(t) + ".gz" || EndsWith(fileName, "." + Extension(t) + ".gz") {
        GzipByShape(fileName, t);
      }
    } else {
      assert Extension(t) + CompressionSuffix(c) == Extension(t);
      if GetFileType(fileName) == Some((t, c)) {
        PlainShape(fileName, t);
      }
      if fileName == Extension(t) || EndsWith(fileName, "." + Extension(t)) {
        PlainByShape(fileName, t);
      }
    }
  }

  /** A name that is exactly `gz` has no component before it and is not recognised. */
  lemma BareGzIsNone()
    ensures GetFileType("gz") == Option.None
  {
    SplitJoin(["gz"]);
  }

  /** Appending `.gz` to a name gives the type its uncompressed form has, gzipped. */
  lemma GzipKeepsFileType(fileName: string, t: FileType)
    requires GetFileType(fileName) == Some((t, CompressionType.None))
    ensures GetFileType(fileName + ".gz") == Some((t, Gzip))
  {
    var g := fileName + ".gz";
    assert g[|g| - 3..] == ".gz";
    SplitLast(g, "gz");
    assert g[..|g| - 3] == fileName;
  }

  // ---------------------------------------------------------------------
  // Line simplification
  // ---------------------------------------------------------------------

  /** Tile-local pixel coordinates, `u16` in the source. */
  type U16 = x: int | 0 <= x < 0x1_0000

  datatype Coord = Coord(x: U16, y: U16)

  /** The distance of a point from the line through a start and an end point. */
  type Distance = (Coord, Coord, Coord) -> real

  /** The distance of `line[k]` from the line joining the first and last points. */
  function Off(line: seq<Coord>, dist: Distance, k: nat): real
    requires 2 <= |line| && k < |line|
  {
    dist(line[k], line[0], line[|line| - 1])
  }

  /**
   * The scan of `simplify_inner` over the interior points from index `k`
   * on, with the greatest distance `maxDist` so far at `maxIdx` (0 before
   * any point beat 0.0). The result is the greatest interior distance
   * (never below 0.0) and the first interior index that attains it, or 0
   * when no distance is above 0.0.
   */
  function FarthestFrom(line: seq<Coord>, dist: Distance, k: nat, maxDist: real, maxIdx: nat): (r: (real, nat))
    requires 2 <= |line| && 1 <= k <= |line| - 1
    requires maxDist >= 0.0 && (maxIdx == 0 ==> maxDist == 0.0)
    requires maxIdx != 0 ==> 1 <= maxIdx < k && Off(line, dist, maxIdx) == maxDist && maxDist > 0.0
    requires forall j :: 1 <= j < k ==> Off(line, dist, j) <= maxDist
    requires forall j :: 1 <= j < maxIdx ==> Off(line, dist, j) < maxDist
    ensures r.0 >= 0.0 && (r.1 == 0 ==> r.0 == 0.0)
    ensures r.1 != 0 ==> 1 <= r.1 <= |line| - 2 && Off(line, dist, r.1) == r.0 && r.0 > 0.0
    ensures forall j :: 1 <= j <= |line| - 2 ==> Off(line, dist, j) <= r.0
    ensures forall j :: 1 <= j < r.1 ==> Off(line, dist, j) < r.0
    decreases |line| - k
  {
    if k == |line| - 1 then (maxDist, maxIdx)
    else
      var d := Off(line, dist, k);
      if d > maxDist then FarthestFrom(line, dist, k + 1, d, k)
      else FarthestFrom(line, dist, k + 1, maxDist, maxIdx)
  }

  /**
   * The scan from the first interior point: the greatest interior distance,
   * never below 0.0, at the first interior index attaining it, or index 0
   * when no interior point is off the line.
   */
  function Farthest(line: seq<Coord>, dist: Distance): (r: (real, nat))
    requires 2 <= |line|
    ensures r.0 >= 0.0 && (r.1 == 0 <==> r.0 == 0.0)
    ensures r.1 != 0 ==> 1 <= r.1 <= |line| - 2 && Off(line, dist, r.1) == r.0
    ensures forall j :: 1 <= j <= |line| - 2 ==> Off(line, dist, j) <= r.0
    ensures forall j :: 1 <= j < r.1 ==> Off(line, dist, j) < r.0
  {
    FarthestFrom(line, dist, 1, 0.0, 0)
  }

  /**
   * The points `simplify_inner` pushes for `line`: when the farthest
   * interior point is more than `epsilon` away, the points kept left of it,
   * the point itself, and the points kept right of it; otherwise none.
   */
  function Interior(line: seq<Coord>, epsilon: real, dist: Distance): (r: seq<Coord>)
    requires epsilon >= 0.0
    ensures |line| >= 2 ==> |r| <= |line| - 2
    decreases |line|
  {
    if |line| < 2 then []
    else
      var (maxDist, maxIdx) := Farthest(line, dist);
      if maxDist > epsilon then
        Interior(line[..maxIdx + 1], epsilon, dist) + [line[maxIdx]] + Interior(line[maxIdx..], epsilon, dist)
      else []
  }

  /** `simplify`: short lines unchanged, otherwise the end points around the kept interior. */
  function Simplified(line: seq<Coord>, epsilon: real, dist: Distance): (r: seq<Coord>)
    requires epsilon >= 0.0
    ensures |r| <= |line| && (|line| >= 2 ==> |r| >= 2)
    ensures r != [] ==> r[0] == line[0] && r[|r| - 1] == line[|line| - 1]
  {
    if |line| < 3 then line else [line[0]] + Interior(line, epsilon, dist) + [line[|line| - 1]]
  }

  /** The interior indices `Interior` keeps, in the same recursion. */
  function KeptIndices(line: seq<Coord>, epsilon: real, dist: Distance): seq<nat>
    requires epsilon >= 0.0
    decreases |line|
  {
    if |line| < 2 then []
    else
      var (maxDist, maxIdx) := Farthest(line, dist);
      if maxDist > epsilon then
        KeptIndices(line[..maxIdx + 1], epsilon, dist) + [maxIdx] + Shift(KeptIndices(line[maxIdx..], epsilon, dist), maxIdx)
      else []
  }

  function Shift(ks: seq<nat>, m: nat): (r: seq<nat>)
    ensures |r| == |ks| && forall j :: 0 <= j < |ks| ==> r[j] == ks[j] + m
  {
    seq(|ks|, j requires 0 <= j < |ks| => ks[j] + m)
  }

  predicate Increasing(ks: seq<nat>)
  {
    forall i, j :: 0 <= i < j < |ks| ==> ks[i] < ks[j]
  }

  /** `ks` picks, in increasing order, the points of `out` from `line`. */
  predicate Picks(out: seq<Coord>, line: seq<Coord>, ks: seq<nat>)
  {
    |ks| == |out| && Increasing(ks) && forall j :: 0 <= j < |ks| ==> ks[j] < |line| && out[j] == line[ks[j]]
  }

  /** Kept points of the two halves around the split point combine into kept points of the whole. */
  lemma CombinePicks(line: seq<Coord>, m: nat, kl: seq<nat>, il: seq<Coord>, kr: seq<nat>, ir: seq<Coord>)
    requires 1 <= m <= |line| - 2
    requires Picks(il, line[..m + 1], kl) && forall j :: 0 <= j < |kl| ==> 0 < kl[j] < m
    requires Picks(ir, line[m..], kr) && forall j :: 0 <= j < |kr| ==> 0 < kr[j] < |line| - m - 1
    ensures var ks := kl + [m] + Shift(kr, m);
      Picks(il + [line[m]] + ir, line, ks) && forall j :: 0 <= j < |ks| ==> 0 < ks[j] < |line| - 1
  {
    var ks := kl + [m] + Shift(kr, m);
    var out := il + [line[m]] + ir;
    forall j | 0 <= j < |ks|
      ensures 0 < ks[j] < |line| - 1 && out[j] == line[ks[j]]
    {
      if j < |kl| {
        assert ks[j] == kl[j] && out[j] == il[j] && line[..m + 1][kl[j]] == line[kl[j]];
      } else if j > |kl| {
        var i := j - |kl| - 1;
        assert ks[j] == kr[i] + m && out[j] == ir[i] && line[m..][kr[i]] == line[kr[i] + m];
      }
    }
    forall a, b | 0 <= a < b < |ks| ensures ks[a] < ks[b] {
      if b < |kl| {
        assert ks[a] == kl[a] && ks[b] == kl[b];
      } else if a > |kl| {
        assert ks[a] == kr[a - |kl| - 1] + m && ks[b] == kr[b - |kl| - 1] + m;
      } else if a < |kl| {
        assert ks[a] == kl[a] < m;
        if b > |kl| {
          assert ks[b] == kr[b - |kl| - 1] + m;
        }
      } else {
        assert ks[b] == kr[b - |kl| - 1] + m;
      }
    }
  }

  /** The pushed points are interior points of the line, in their original order. */
  lemma {:induction false} InteriorIsSubsequence(line: seq<Coord>, epsilon: real, dist: Distance)
    requires epsilon >= 0.0
    ensures var ks := KeptIndices(line, epsilon, dist);
      Picks(Interior(line, epsilon, dist), line, ks) && forall j :: 0 <= j < |ks| ==> 0 < ks[j] < |line| - 1
    decreases |line|
  {
    if |line| >= 2 {
      var (maxDist, maxIdx) := Farthest(line, dist);
      if maxDist > epsilon {
        var left := line[..maxIdx + 1];
        var right := line[maxIdx..];
        InteriorIsSubsequence(left, epsilon, dist);
        InteriorIsSubsequence(right, epsilon, dist);
        CombinePicks(line, maxIdx, KeptIndices(left, epsilon, dist), Interior(left, epsilon, dist),
                     KeptIndices(right, epsilon, dist), Interior(right, epsilon, dist));
      }
    }
  }

  /**
   * The simplified line keeps the first and last points and between them
   * only points of the input, in their original order; short lines come
   * back unchanged.
   */
  lemma SimplifiedIsSubsequence(line: seq<Coord>, epsilon: real, dist: Distance)
    requires epsilon >= 0.0
    ensures var out := Simplified(line, epsilon, dist);
      && (|line| < 3 ==> out == line)
      && (|line| >= 3 ==> |out| >= 2 && out[0] == line[0] && out[|out| - 1] == line[|line| - 1])
      && exists ks :: Picks(out, line, ks)
  {
    var out := Simplified(line, epsilon, dist);
    if |line| < 3 {
      var ks := seq(|line|, j requires 0 <= j < |line| => j);
      assert Picks(out, line, ks);
    } else {
      InteriorIsSubsequence(line, epsilon, dist);
      var ki := KeptIndices(line, epsilon, dist);
      var inner := Interior(line, epsilon, dist);
      assert out == [line[0]] + inner + [line[|line| - 1]];
      PicksWithEnds(line, inner, ki);
    }
  }

  /** Interior picks with both end points added are picks of the whole line. */
  lemma PicksWithEnds(line: seq<Coord>, inner: seq<Coord>, ki: seq<nat>)
    requires |line| >= 2 && Picks(inner, line, ki) && forall j :: 0 <= j < |ki| ==> 0 < ki[j] < |line| - 1
    ensures Picks([line[0]] + inner + [line[|line| - 1]], line, [0] + ki + [|line| - 1])
  {
    var out := [line[0]] + inner + [line[|line| - 1]];
    var ks := [0] + ki + [|line| - 1];
    forall j | 0 <= j < |ks| ensures ks[j] < |line| && out[j] == line[ks[j]] {
      if 0 < j < |ks| - 1 {
        assert ks[j] == ki[j - 1] && out[j] == inner[j - 1];
      }
    }
    forall a, b | 0 <= a < b < |ks| ensures ks[a] < ks[b] {
      if 0 < a && b < |ks| - 1 {
        assert ks[a] == ki[a - 1] && ks[b] == ki[b - 1];
      } else if 0 < a {
        assert ks[a] == ki[a - 1];
      } else if b < |ks| - 1 {
        assert ks[b] == ki[b - 1];
      }
    }
  }

  /** When the farthest point splits the line, it is strictly inside it. */
  lemma SplitIsInterior(line: seq<Coord>, epsilon: real, dist: Distance)
    requires epsilon >= 0.0 && 2 <= |line| && Farthest(line, dist).0 > epsilon
    ensures 1 <= Farthest(line, dist).1 <= |line| - 2
  {
  }

  /**
   * When no interior point is farther than `epsilon` from the line joining
   * the ends, only the two end points remain.
   */
  lemma NoFarPointKeepsEnds(line: seq<Coord>, epsilon: real, dist: Distance)
    requires epsilon >= 0.0 && |line| >= 3
    requires forall j :: 1 <= j <= |line| - 2 ==> Off(line, dist, j) <= epsilon
    ensures Simplified(line, epsilon, dist) == [line[0], line[|line| - 1]]
  {
    var (maxDist, maxIdx) := Farthest(line, dist);
    if maxIdx != 0 {
      assert Off(line, dist, maxIdx) <= epsilon;
    }
  }

  /**
   * The source's second simplification test, for any distance that agrees
   * with the Euclidean one on which side of 2.0 each point lies: the spike
   * at (5, 5) is kept and the points near the ends are dropped.
   */
  lemma RetainsSpike(dist: Distance)
    requires var o, p, q := Coord(0, 0), Coord(5, 5), Coord(1, 1);
      && dist(p, o, o) > 2.0 && dist(o, o, o) < dist(p, o, o) && dist(q, o, o) < dist(p, o, o)
      && dist(o, p, o) >= 0.0 && dist(o, p, o) <= 2.0 && dist(q, p, o) <= 2.0
    ensures Simplified([Coord(0, 0), Coord(5, 5), Coord(0, 0), Coord(1, 1), Coord(0, 0)], 2.0, dist) ==
      [Coord(0, 0), Coord(5, 5), Coord(0, 0)]
  {
    var o, p, q := Coord(0, 0), Coord(5, 5), Coord(1, 1);
    var line := [o, p, o, q, o];
    var r := Farthest(line, dist);
    assert r.1 == 1;
    var right := line[1..];
    assert right == [p, o, q, o];
    NoFarPointKeepsEnds(right, 2.0, dist);
    assert Interior(line[..2], 2.0, dist) == [] by {
      assert Farthest(line[..2], dist) == (0.0, 0);
    }
  }

  /** The `Vec` that `simplify_inner` pushes kept points into. */
  class PointBuffer {
    var points: seq<Coord>

    constructor Start(first: Coord)
      ensures points == [first]
    {
      points := [first];
    }

    method Push(p: Coord)
      modifies this
      ensures points == old(points) + [p]
    {
      points := points + [p];
    }
  }

  /** The scan loop of `simplify_inner`: the farthest interior point and its distance. */
  method FindFarthest(line: seq<Coord>, dist: Distance) returns (maxDist: real, maxIdx: nat)
    requires 2 <= |line|
    ensures (maxDist, maxIdx) == Farthest(line, dist)
  {
    var start, end := line[0], line[|line| - 1];
    maxDist, maxIdx := 0.0, 0;
    var k := 1;
    while k < |line| - 1
      invariant 1 <= k <= |line| - 1
      invariant maxDist >= 0.0 && (maxIdx == 0 ==> maxDist == 0.0)
      invariant maxIdx != 0 ==> 1 <= maxIdx < k && Off(line, dist, maxIdx) == maxDist && maxDist > 0.0
      invariant forall j :: 1 <= j < k ==> Off(line, dist, j) <= maxDist
      invariant forall j :: 1 <= j < maxIdx ==> Off(line, dist, j) < maxDist
      invariant Farthest(line, dist) == FarthestFrom(line, dist, k, maxDist, maxIdx)
    {
      var d := dist(line[k], start, end);
      if d > maxDist {
        maxDist := d;
        maxIdx := k;
      }
      k := k + 1;
    }
  }

  /** `simplify_inner`: pushes the kept interior points of `line` onto `buffer`. */
  method SimplifyInner(line: seq<Coord>, epsilon: real, dist: Distance, buffer: PointBuffer)
    requires epsilon >= 0.0
    modifies buffer
    ensures buffer.points == old(buffer.points) + Interior(line, epsilon, dist)
    decreases |line|, 1
  {
    if |line| >= 2 {
      var maxDist, maxIdx := FindFarthest(line, dist);
      if maxDist > epsilon {
        PushAround(line, maxIdx, epsilon, dist, buffer);
      }
    }
  }

  /** The kept branch of `simplify_inner`: both halves around the split point `k`, and the point itself. */
  method PushAround(line: seq<Coord>, k: nat, epsilon: real, dist: Distance, buffer: PointBuffer)
    requires epsilon >= 0.0 && 1 <= k <= |line| - 2
    modifies buffer
    ensures buffer.points == old(buffer.points) + (Interior(line[..k + 1], epsilon, dist) + [line[k]] + Interior(line[k..], epsilon, dist))
    decreases |line|, 0
  {
    ghost var before := buffer.points;
    ghost var left := Interior(line[..k + 1], epsilon, dist);
    ghost var right := Interior(line[k..], epsilon, dist);
    SimplifyInner(line[..k + 1], epsilon, dist, buffer);
    buffer.Push(line[k]);
    SimplifyInner(line[k..], epsilon, dist, buffer);
    assert buffer.points == before + left + [line[k]] + right;
  }

  /** `simplify` (Ramer–Douglas–Peucker). */
  method Simplify(line: seq<Coord>, epsilon: real, dist: Distance) returns (r: seq<Coord>)
    requires epsilon >= 0.0
    ensures r == Simplified(line, epsilon, dist)
  {
    if |line| < 3 {
      return line;
    }
    var buf := new PointBuffer.Start(line[0]);
    SimplifyInner(line, epsilon, dist, buf);
    buf.Push(line[|line| - 1]);
    r := buf.points;
  }
}
