// PNTMeshViewer.java: a height function over a grid, as a mesh of triangles with one normal
// each. Coordinates are reals; the height and the normal are parameters.

module Mesh {
  import opened Grids

  datatype Vec = Vec(x: real, y: real, z: real)

  const MIN: real := -10.0
  const MAX: real := 10.0

  // nx by ny cells.
  datatype Grid = Grid(nx: nat, ny: nat) {
    predicate Valid() {
      nx > 0 && ny > 0
    }

    function Vertices(): nat {
      (ny + 1) * (nx + 1)
    }

    function Triangles(): nat {
      nx * ny * 2
    }

    // Cell k is in row Row(k) and column Col(k).
    function Row(k: nat): nat
      requires Valid()
    {
      k / nx
    }

    function Col(k: nat): nat
      requires Valid()
    {
      k % nx
    }
  }

  // ---- What the arrays hold ----

  type Height = (real, real) -> real
  type Normal = (Vec, Vec, Vec) -> Vec

  function Along(i: nat, n: nat): real
    requires n > 0
  {
    var d := i as real / n as real;
    (1.0 - d) * MIN + d * MAX
  }

  // The point of column x in row y.
  function PointAt(g: Grid, scale: real, h: Height, y: nat, x: nat): Vec
    requires g.Valid()
  {
    var fx, fy := Along(x, g.nx), Along(y, g.ny);
    Vec(fx * scale, fy * scale, h(fx, fy) * scale)
  }

  function Vertex(g: Grid, scale: real, h: Height): nat -> Vec
    requires g.Valid()
  {
    (v: nat) => PointAt(g, scale, h, v / (g.nx + 1), v % (g.nx + 1))
  }

  // Corner c of triangle t, as row and column: two triangles a cell, p00 p10 p11 and
  // p11 p01 p00.
  function Corner(g: Grid, t: nat, c: nat): (nat, nat)
    requires g.Valid() && c < 3
  {
    var y, x := g.Row(t / 2), g.Col(t / 2);
    if c == 1 then (if t % 2 == 0 then (y + 1, x) else (y, x + 1))
    else if (c == 0) == (t % 2 == 0) then (y, x)
    else (y + 1, x + 1)
  }

  // Its index among the points, and among the texture coordinates.
  function Index(g: Grid, t: nat, c: nat): nat
    requires g.Valid() && c < 3
  {
    At(Corner(g, t, c).0, Corner(g, t, c).1, g.nx + 1)
  }

  function NormalOf(g: Grid, scale: real, h: Height, n: Normal): nat -> Vec
    requires g.Valid()
  {
    var v := Vertex(g, scale, h);
    (t: nat) => n(v(Index(g, t, 0)), v(Index(g, t, 1)), v(Index(g, t, 2)))
  }

  predicate Holds3(s: seq<real>, k: nat, p: Vec) {
    3 * k + 2 < |s| && s[3 * k] == p.x && s[3 * k + 1] == p.y && s[3 * k + 2] == p.z
  }

  // The first n vectors of s are those of f.
  ghost predicate Filled(s: seq<real>, n: nat, f: nat -> Vec) {
    forall k: nat :: k < n ==> Holds3(s, k, f(k))
  }

  // Triangle t's nine numbers: point, normal and texture coordinate for each corner.
  predicate FaceHolds(g: Grid, s: seq<int>, t: nat)
    requires g.Valid()
  {
    && 9 * t + 9 <= |s|
    && s[9 * t] == Index(g, t, 0) && s[9 * t + 1] == t && s[9 * t + 2] == Index(g, t, 0)
    && s[9 * t + 3] == Index(g, t, 1) && s[9 * t + 4] == t && s[9 * t + 5] == Index(g, t, 1)
    && s[9 * t + 6] == Index(g, t, 2) && s[9 * t + 7] == t && s[9 * t + 8] == Index(g, t, 2)
  }

  ghost predicate FacesFilled(g: Grid, s: seq<int>, n: nat)
    requires g.Valid()
  {
    forall t: nat :: t < n ==> FaceHolds(g, s, t)
  }

  ghost predicate TexFilled(g: Grid, s: seq<real>, n: nat)
    requires g.Valid()
  {
    forall v: nat :: v < n ==> TexHolds(g, s, v)
  }

  predicate TexHolds(g: Grid, s: seq<real>, v: nat)
    requires g.Valid()
  {
    && 2 * v + 1 < |s| && s[2 * v] == (v % (g.nx + 1)) as real / g.nx as real
    && s[2 * v + 1] == (v / (g.nx + 1)) as real / g.ny as real
  }

  ghost predicate PointsOk(g: Grid, s: seq<real>, scale: real, h: Height)
    requires g.Valid()
  {
    |s| == 3 * g.Vertices() && Filled(s, g.Vertices(), Vertex(g, scale, h))
  }

  ghost predicate NormalsOk(g: Grid, s: seq<real>, scale: real, h: Height, n: Normal)
    requires g.Valid()
  {
    |s| == 3 * g.Triangles() && Filled(s, g.Triangles(), NormalOf(g, scale, h, n))
  }

  ghost predicate FacesOk(g: Grid, s: seq<int>)
    requires g.Valid()
  {
    |s| == 9 * g.Triangles() && FacesFilled(g, s, g.Triangles())
  }

  // The arrays are determined by the grid and the functions: two that fit are equal.
  lemma OnlyOne(s: seq<real>, u: seq<real>, n: nat, f: nat -> Vec)
    requires |s| == |u| == 3 * n && Filled(s, n, f) && Filled(u, n, f)
    ensures s == u
  {
    forall i | 0 <= i < 3 * n
      ensures s[i] == u[i]
    {
      assert Holds3(s, i / 3, f(i / 3)) && Holds3(u, i / 3, f(i / 3));
      assert i == 3 * (i / 3) + i % 3;
    }
  }

  lemma OnlyFaces(g: Grid, s: seq<int>, u: seq<int>)
    requires g.Valid() && FacesOk(g, s) && FacesOk(g, u)
    ensures s == u
  {
    hide Index, Grid.Triangles;
    forall i | 0 <= i < |s|
      ensures s[i] == u[i]
    {
      assert FaceHolds(g, s, i / 9) && FaceHolds(g, u, i / 9);
      assert i == 9 * (i / 9) + i % 9;
    }
  }

  // ---- Corners in range ----

  lemma CellInside(g: Grid, t: nat)
    requires g.Valid() && t < g.Triangles()
    ensures g.Row(t / 2) < g.ny && g.Col(t / 2) < g.nx
    ensures t / 2 == At(g.Row(t / 2), g.Col(t / 2), g.nx)
  {
    var k := t / 2;
    DivMod(k, g.nx);
    Below(k / g.nx, g.ny, g.nx, k % g.nx);
  }

  lemma DivMod(k: nat, n: nat)
    requires n > 0
    ensures k == At(k / n, k % n, n) && k % n < n
  {
  }

  lemma Below(a: nat, b: nat, n: nat, r: nat)
    requires a * n + r < b * n
    ensures a < b
  {
    if a >= b {
      TimesMonotone(b, a, n, n);
      assert false;
    }
  }

  lemma VertexInside(g: Grid, y: nat, x: nat)
    requires y <= g.ny && x <= g.nx
    ensures At(y, x, g.nx + 1) < g.Vertices()
  {
    TimesMonotone(y, g.ny, g.nx + 1, g.nx + 1);
  }

  // Every index in the face array is in range.
  lemma IndexInside(g: Grid, t: nat, c: nat)
    requires g.Valid() && t < g.Triangles() && c < 3
    ensures Index(g, t, c) < g.Vertices() && Corner(g, t, c).1 < g.nx + 1
  {
    CellInside(g, t);
    VertexInside(g, Corner(g, t, c).0, Corner(g, t, c).1);
  }

  // ---- The surface ----

  function Next(c: nat): nat
    requires c < 3
  {
    if c == 2 then 0 else c + 1
  }

  // The directed edge from corner c of triangle t to the next corner.
  function Edge(g: Grid, t: nat, c: nat): (nat, nat)
    requires g.Valid() && c < 3
  {
    (Index(g, t, c), Index(g, t, Next(c)))
  }

  lemma SameVertex(g: Grid, a: (nat, nat), b: (nat, nat))
    requires a.1 < g.nx + 1 && b.1 < g.nx + 1 && At(a.0, a.1, g.nx + 1) == At(b.0, b.1, g.nx + 1)
    ensures a == b
  {
    AtInverse(a.0, a.1, g.nx + 1);
    AtInverse(b.0, b.1, g.nx + 1);
  }

  lemma SameCell(g: Grid, t: nat, u: nat)
    requires g.Valid() && t % 2 == u % 2
    requires g.Row(t / 2) == g.Row(u / 2) && g.Col(t / 2) == g.Col(u / 2)
    ensures t == u
  {
    var k, j := t / 2, u / 2;
    assert k == k / g.nx * g.nx + k % g.nx && j == j / g.nx * g.nx + j % g.nx;
  }

  // Which way three corners turn, seen from above.
  function Turn(a: (nat, nat), b: (nat, nat), c: (nat, nat)): int {
    (b.1 - a.1) * (c.0 - a.0) - (b.0 - a.0) * (c.1 - a.1)
  }

  // All triangles turn the same way, and each is half a cell.
  lemma SameTurn(g: Grid, t: nat)
    requires g.Valid()
    ensures Turn(Corner(g, t, 0), Corner(g, t, 1), Corner(g, t, 2)) == -1
  {
  }

  // No directed edge belongs to two triangles, or twice to one.
  lemma EdgeOnce(g: Grid, t: nat, c: nat, u: nat, d: nat)
    requires g.Valid() && t < g.Triangles() && u < g.Triangles() && c < 3 && d < 3
    ensures Edge(g, t, c) == Edge(g, u, d) ==> t == u && c == d
  {
    hide Corner, Edge, Grid.Triangles;
    EdgeCorners(g, t, c, u, d);
    if Edge(g, t, c) == Edge(g, u, d) {
      SameCorners(g, t, c, u, d);
    }
  }

  lemma EdgeCorners(g: Grid, t: nat, c: nat, u: nat, d: nat)
    requires g.Valid() && t < g.Triangles() && u < g.Triangles() && c < 3 && d < 3
    ensures Edge(g, t, c) == Edge(g, u, d) ==>
              Corner(g, t, c) == Corner(g, u, d) && Corner(g, t, Next(c)) == Corner(g, u, Next(d))
  {
    hide Corner, At;
    IndexInside(g, t, c);
    IndexInside(g, t, Next(c));
    IndexInside(g, u, d);
    IndexInside(g, u, Next(d));
    if Edge(g, t, c) == Edge(g, u, d) {
      SameVertex(g, Corner(g, t, c), Corner(g, u, d));
      SameVertex(g, Corner(g, t, Next(c)), Corner(g, u, Next(d)));
    }
  }

  lemma SameCorners(g: Grid, t: nat, c: nat, u: nat, d: nat)
    requires g.Valid() && c < 3 && d < 3
    requires Corner(g, t, c) == Corner(g, u, d) && Corner(g, t, Next(c)) == Corner(g, u, Next(d))
    ensures t == u && c == d
  {
    hide Grid.Row, Grid.Col;
    assert c == d && t % 2 == u % 2;
    assert g.Row(t / 2) == g.Row(u / 2) && g.Col(t / 2) == g.Col(u / 2);
    SameCell(g, t, u);
  }

  // An edge along the rim of the grid.
  predicate OnRim(g: Grid, t: nat, c: nat)
    requires g.Valid() && c < 3
  {
    var a, b := Corner(g, t, c), Corner(g, t, Next(c));
    || (a.0 == b.0 && (a.0 == 0 || a.0 == g.ny))
    || (a.1 == b.1 && (a.1 == 0 || a.1 == g.nx))
  }

  // The triangle on the other side of an edge, and the corner from which it runs back.
  function Across(g: Grid, t: nat, c: nat): (int, nat)
    requires g.Valid() && c < 3
  {
    if c == 2 then (if t % 2 == 0 then t + 1 else t - 1, 2)
    else if t % 2 == 0 then (if c == 0 then t - 1 else t + 2 * g.nx + 1, c)
    else (if c == 0 then t + 1 else t - 2 * g.nx - 1, c)
  }

  // Every edge off the rim runs once in each direction.
  lemma RunsBack(g: Grid, t: nat, c: nat)
    requires g.Valid() && t < g.Triangles() && c < 3 && !OnRim(g, t, c)
    ensures var (u, d) := Across(g, t, c);
            0 <= u < g.Triangles() && Edge(g, u, d) == (Edge(g, t, c).1, Edge(g, t, c).0)
  {
    hide Grid.Row, Grid.Col, Grid.Triangles, At;
    var (u, d) := Across(g, t, c);
    CellInside(g, t);
    var y, x := g.Row(t / 2), g.Col(t / 2);
    AtNext(y, x, g.nx);
    if c == 0 && t % 2 == 0 {
      AtNext(y, x - 1, g.nx);
      CellAt(g, y, x - 1);
    } else if c == 0 {
      AtNext(y, x + 1, g.nx);
      CellAt(g, y, x + 1);
    } else if c == 1 && t % 2 == 0 {
      CellAt(g, y + 1, x);
    } else if c == 1 {
      AtNext(y - 1, x, g.nx);
      CellAt(g, y - 1, x);
    } else {
      CellAt(g, y, x);
    }
  }

  lemma CellAt(g: Grid, y: nat, x: nat)
    requires g.Valid() && y < g.ny && x < g.nx
    ensures var k := At(y, x, g.nx);
            g.Row(k) == y && g.Col(k) == x && 2 * k + 1 < g.Triangles()
  {
    DivIs(At(y, x, g.nx), g.nx, y, x);
    AtOrder(y, g.ny, g.nx);
  }

  // No edge of the rim runs back: the mesh ends there.
  lemma RimIsOpen(g: Grid, t: nat, c: nat, u: nat, d: nat)
    requires g.Valid() && t < g.Triangles() && u < g.Triangles() && c < 3 && d < 3 && OnRim(g, t, c)
    ensures Edge(g, u, d) != (Edge(g, t, c).1, Edge(g, t, c).0)
  {
    if Edge(g, u, d) == (Edge(g, t, c).1, Edge(g, t, c).0) {
      BackCorners(g, t, c, u, d);
      CellInside(g, t);
      CellInside(g, u);
      hide Grid.Row, Grid.Col;
      assert false;
    }
  }

  lemma BackCorners(g: Grid, t: nat, c: nat, u: nat, d: nat)
    requires g.Valid() && t < g.Triangles() && u < g.Triangles() && c < 3 && d < 3
    requires Edge(g, u, d) == (Edge(g, t, c).1, Edge(g, t, c).0)
    ensures Corner(g, t, c) == Corner(g, u, Next(d)) && Corner(g, t, Next(c)) == Corner(g, u, d)
  {
    hide Corner, At;
    IndexInside(g, t, c);
    IndexInside(g, t, Next(c));
    IndexInside(g, u, d);
    IndexInside(g, u, Next(d));
    SameVertex(g, Corner(g, t, c), Corner(g, u, Next(d)));
    SameVertex(g, Corner(g, t, Next(c)), Corner(g, u, d));
  }

  // ---- The loops ----

  method Put3(a: array<real>, index: nat, p: Vec, ghost k: nat, ghost f: nat -> Vec)
    requires index == 3 * k && 3 * k + 3 <= a.Length && Filled(a[..], k, f) && p == f(k)
    modifies a
    ensures Filled(a[..], k + 1, f)
    ensures forall i :: 0 <= i < a.Length && !(index <= i < index + 3) ==> a[i] == old(a[i])
  {
    ghost var before := a[..];
    a[index] := p.x;
    a[index + 1] := p.y;
    a[index + 2] := p.z;
    forall j: nat | j < k
      ensures Holds3(a[..], j, f(j))
    {
      assert Holds3(before, j, f(j));
    }
  }

  method GetPoint(a: array<real>, v: nat, ghost n: nat, ghost f: nat -> Vec) returns (p: Vec)
    requires v < n && 3 * n <= a.Length && Filled(a[..], n, f)
    ensures p == f(v)
  {
    assert Holds3(a[..], v, f(v));
    p := Vec(a[v * 3], a[v * 3 + 1], a[v * 3 + 2]);
  }

  lemma VertexAt(g: Grid, scale: real, h: Height, y: nat, x: nat)
    requires g.Valid() && y <= g.ny && x <= g.nx
    ensures var v := At(y, x, g.nx + 1);
            && Vertex(g, scale, h)(v) == PointAt(g, scale, h, y, x) && v < g.Vertices()
            && v / (g.nx + 1) == y && v % (g.nx + 1) == x
  {
    AtInverse(y, x, g.nx + 1);
    VertexInside(g, y, x);
  }

  // The points of computeMesh: rows and columns in turn.
  method SetPoints(g: Grid, scale: real, h: Height, points: array<real>)
    requires g.Valid() && points.Length == 3 * g.Vertices()
    modifies points
    ensures PointsOk(g, points[..], scale, h)
  {
    hide PointAt, At, Filled, Grid.Vertices, Vertex;
    ghost var f := Vertex(g, scale, h);
    NothingFilled(points[..], f);
    AtNext(0, 0, g.nx + 1);
    for y := 0 to g.ny + 1
      invariant Filled(points[..], At(y, 0, g.nx + 1), f)
    {
      for x := 0 to g.nx + 1
        invariant Filled(points[..], At(y, x, g.nx + 1), f)
      {
        VertexAt(g, scale, h, y, x);
        AtNext(y, x, g.nx + 1);
        AtNext(y, x + 1, g.nx + 1);
        ghost var v := At(y, x, g.nx + 1);
        var index := At(y, x, g.nx + 1) * 3;
        Put3(points, index, PointAt(g, scale, h, y, x), v, f);
      }
      AtNext(y, 0, g.nx + 1);
      AtNext(y, g.nx + 1, g.nx + 1);
    }
    AllVertices(g);
  }

  lemma NothingFilled(s: seq<real>, f: nat -> Vec)
    ensures Filled(s, 0, f)
  {
  }

  lemma AllVertices(g: Grid)
    ensures At(g.ny + 1, 0, g.nx + 1) == g.Vertices()
  {
  }

  // computeMesh: the arrays of a mesh, in place, for another height function.
  method ComputeMesh(g: Grid, scale: real, h: Height, n: Normal, points: array<real>, normals: array<real>,
                     faces: array<int>)
    requires g.Valid() && points.Length == 3 * g.Vertices() && normals.Length == 3 * g.Triangles()
    requires FacesOk(g, faces[..]) && points != normals
    modifies points, normals
    ensures PointsOk(g, points[..], scale, h) && NormalsOk(g, normals[..], scale, h, n)
  {
    hide Filled, Grid.Vertices, Grid.Triangles, Index, Vertex, NormalOf;
    SetPoints(g, scale, h, points);
    ghost var f, m := Vertex(g, scale, h), NormalOf(g, scale, h, n);
    NothingFilled(normals[..], m);
    ghost var fc, t: nat := faces[..], 0;
    var index := 0;
    while index < faces.Length
      invariant index == 9 * t && t <= g.Triangles() && faces[..] == fc
      invariant Filled(points[..], g.Vertices(), f) && Filled(normals[..], t, m)
    {
      assert FaceHolds(g, fc, t);
      IndexInside(g, t, 0);
      IndexInside(g, t, 1);
      IndexInside(g, t, 2);
      var a := GetPoint(points, faces[index], g.Vertices(), f);
      var b := GetPoint(points, faces[index + 3], g.Vertices(), f);
      var c := GetPoint(points, faces[index + 6], g.Vertices(), f);
      var normal := n(a, b, c);
      // The source's own assertion.
      assert faces[index + 1] == faces[index + 4] && faces[index + 1] == faces[index + 7];
      var nIndex := faces[index + 1] * 3;
      NormalAt(g, scale, h, n, t);
      PutNormal(normals, nIndex, normal, t, m, points, f, g.Vertices());
      index, t := index + 9, t + 1;
    }
  }

  lemma NormalAt(g: Grid, scale: real, h: Height, n: Normal, t: nat)
    requires g.Valid()
    ensures var f := Vertex(g, scale, h);
            NormalOf(g, scale, h, n)(t) == n(f(Index(g, t, 0)), f(Index(g, t, 1)), f(Index(g, t, 2)))
  {
    hide Vertex, Index;
  }

  // Setting a normal leaves the points alone.
  method PutNormal(normals: array<real>, nIndex: nat, normal: Vec, ghost t: nat, ghost m: nat -> Vec,
                   points: array<real>, ghost f: nat -> Vec, ghost vertices: nat)
    requires points != normals && nIndex == 3 * t && 3 * t + 3 <= normals.Length && normal == m(t)
    requires Filled(normals[..], t, m) && Filled(points[..], vertices, f)
    modifies normals
    ensures Filled(normals[..], t + 1, m) && Filled(points[..], vertices, f)
  {
    hide Filled;
    ghost var px := points[..];
    Put3(normals, nIndex, normal, t, m);
    assert points[..] == px;
  }

  // The nine numbers of a triangle.
  method PutFace(faces: array<int>, index: nat, p0: int, p1: int, p2: int, normal: int, ghost g: Grid, ghost t: nat)
    requires g.Valid() && index == 9 * t && index + 9 <= faces.Length && FacesFilled(g, faces[..], t)
    requires p0 == Index(g, t, 0) && p1 == Index(g, t, 1) && p2 == Index(g, t, 2) && normal == t
    modifies faces
    ensures FacesFilled(g, faces[..], t + 1)
    ensures forall i :: 0 <= i < faces.Length && !(index <= i < index + 9) ==> faces[i] == old(faces[i])
  {
    hide Index, FacesFilled;
    ghost var before := faces[..];
    faces[index + 0], faces[index + 1], faces[index + 2] := p0, normal, p0;
    faces[index + 3], faces[index + 4], faces[index + 5] := p1, normal, p1;
    faces[index + 6], faces[index + 7], faces[index + 8] := p2, normal, p2;
    FacesKept(g, before, faces[..], t);
  }

  lemma FacesKept(g: Grid, before: seq<int>, after: seq<int>, t: nat)
    requires g.Valid() && FacesFilled(g, before, t) && FaceHolds(g, after, t) && |after| == |before|
    requires forall i :: 0 <= i < 9 * t ==> after[i] == before[i]
    ensures FacesFilled(g, after, t + 1)
  {
    hide Index;
    forall u: nat | u < t
      ensures FaceHolds(g, after, u)
    {
      assert FaceHolds(g, before, u);
    }
  }

  // One triangle of the build: its normal, and its face.
  method AddTriangle(g: Grid, scale: real, h: Height, n: Normal, points: array<real>, normals: array<real>,
                     faces: array<int>, index: nat, p0: nat, p1: nat, p2: nat, normalCount: nat)
    requires g.Valid() && points != normals && points.Length == 3 * g.Vertices()
    requires normals.Length == 3 * g.Triangles() && faces.Length == 9 * g.Triangles()
    requires normalCount < g.Triangles() && index == 9 * normalCount
    requires p0 == Index(g, normalCount, 0) && p1 == Index(g, normalCount, 1) && p2 == Index(g, normalCount, 2)
    requires Filled(points[..], g.Vertices(), Vertex(g, scale, h))
    requires Filled(normals[..], normalCount, NormalOf(g, scale, h, n)) && FacesFilled(g, faces[..], normalCount)
    modifies normals, faces
    ensures Filled(points[..], g.Vertices(), Vertex(g, scale, h))
    ensures Filled(normals[..], normalCount + 1, NormalOf(g, scale, h, n)) && FacesFilled(g, faces[..], normalCount + 1)
  {
    hide Filled, FacesFilled, Grid.Vertices, Grid.Triangles, Index, Vertex, NormalOf;
    ghost var f, m := Vertex(g, scale, h), NormalOf(g, scale, h, n);
    IndexInside(g, normalCount, 0);
    IndexInside(g, normalCount, 1);
    IndexInside(g, normalCount, 2);
    var a := GetPoint(points, p0, g.Vertices(), f);
    var b := GetPoint(points, p1, g.Vertices(), f);
    var c := GetPoint(points, p2, g.Vertices(), f);
    NormalAt(g, scale, h, n, normalCount);
    PutNormal(normals, normalCount * 3, n(a, b, c), normalCount, m, points, f, g.Vertices());
    ghost var nx := normals[..];
    PutFace(faces, index, p0, p1, p2, normalCount, g, normalCount);
    assert normals[..] == nx;
  }

  // The corners of the two triangles of a cell, by the arithmetic of the loop.
  lemma CellCorners(g: Grid, y: nat, x: nat)
    requires g.Valid() && y < g.ny && x < g.nx
    ensures var t, p00 := 2 * At(y, x, g.nx), At(y, x, g.nx + 1);
            var p10 := p00 + (g.nx + 1);
            && t + 1 < g.Triangles()
            && Index(g, t, 0) == p00 && Index(g, t, 1) == p10 && Index(g, t, 2) == p10 + 1
            && Index(g, t + 1, 0) == p10 + 1 && Index(g, t + 1, 1) == p00 + 1 && Index(g, t + 1, 2) == p00
  {
    hide At, Grid.Row, Grid.Col, Grid.Triangles;
    CellAt(g, y, x);
    AtNext(y, x, g.nx + 1);
    AtNext(y, x + 1, g.nx + 1);
    AtNext(y + 1, x, g.nx + 1);
    AtNext(y + 1, x + 1, g.nx + 1);
  }

  // A point and its texture coordinates.
  method PutVertex(points: array<real>, texCoords: array<real>, index: nat, p: Vec, dx: real, dy: real,
                   ghost g: Grid, ghost v: nat, ghost f: nat -> Vec)
    requires g.Valid() && points != texCoords && index == v
    requires 3 * v + 3 <= points.Length && 2 * v + 2 <= texCoords.Length
    requires Filled(points[..], v, f) && TexFilled(g, texCoords[..], v) && p == f(v)
    requires dx == (v % (g.nx + 1)) as real / g.nx as real && dy == (v / (g.nx + 1)) as real / g.ny as real
    modifies points, texCoords
    ensures Filled(points[..], v + 1, f) && TexFilled(g, texCoords[..], v + 1)
  {
    hide Filled;
    ghost var before := texCoords[..];
    Put3(points, index * 3, p, v, f);
    assert texCoords[..] == before;
    ghost var px := points[..];
    texCoords[index * 2] := dx;
    texCoords[index * 2 + 1] := dy;
    assert points[..] == px;
    forall w: nat | w < v
      ensures TexHolds(g, texCoords[..], w)
    {
      assert TexHolds(g, before, w);
    }
  }

  method BuildVertices(g: Grid, scale: real, h: Height, points: array<real>, texCoords: array<real>)
    requires g.Valid() && points != texCoords
    requires points.Length == 3 * g.Vertices() && texCoords.Length == 2 * g.Vertices()
    modifies points, texCoords
    ensures PointsOk(g, points[..], scale, h) && TexFilled(g, texCoords[..], g.Vertices())
  {
    hide PointAt, At, Filled, TexFilled, Grid.Vertices, Vertex;
    ghost var f := Vertex(g, scale, h);
    NothingFilled(points[..], f);
    NothingSet(g, texCoords[..], []);
    AtNext(0, 0, g.nx + 1);
    for y := 0 to g.ny + 1
      invariant Filled(points[..], At(y, 0, g.nx + 1), f) && TexFilled(g, texCoords[..], At(y, 0, g.nx + 1))
    {
      var dy := y as real / g.ny as real;
      for x := 0 to g.nx + 1
        invariant Filled(points[..], At(y, x, g.nx + 1), f) && TexFilled(g, texCoords[..], At(y, x, g.nx + 1))
      {
        var dx := x as real / g.nx as real;
        VertexAt(g, scale, h, y, x);
        AtNext(y, x, g.nx + 1);
        AtNext(y, x + 1, g.nx + 1);
        var index := At(y, x, g.nx + 1);
        PutVertex(points, texCoords, index, PointAt(g, scale, h, y, x), dx, dy, g, index, f);
      }
      AtNext(y, 0, g.nx + 1);
      AtNext(y, g.nx + 1, g.nx + 1);
    }
    AllVertices(g);
  }

  lemma NothingSet(g: Grid, tex: seq<real>, faces: seq<int>)
    requires g.Valid()
    ensures TexFilled(g, tex, 0) && FacesFilled(g, faces, 0)
  {
  }

  // buildTriangleMesh
  method BuildTriangleMesh(g: Grid, scale: real, h: Height, n: Normal)
    returns (points: array<real>, texCoords: array<real>, normals: array<real>, faces: array<int>)
    requires g.Valid()
    ensures fresh(points) && fresh(normals) && fresh(faces) && points != normals
    ensures PointsOk(g, points[..], scale, h) && NormalsOk(g, normals[..], scale, h, n) && FacesOk(g, faces[..])
    ensures texCoords.Length == 2 * g.Vertices() && TexFilled(g, texCoords[..], g.Vertices())
  {
    hide Filled, TexFilled, FacesFilled, Grid.Vertices, Grid.Triangles, Index, Vertex, NormalOf, At;
    points := new real[g.Vertices() * 3];
    texCoords := new real[g.Vertices() * 2];
    normals := new real[g.Triangles() * 3];
    faces := new int[g.Triangles() * 9];
    BuildVertices(g, scale, h, points, texCoords);
    BuildFaces(g, scale, h, n, points, normals, faces, texCoords);
  }

  method BuildFaces(g: Grid, scale: real, h: Height, n: Normal, points: array<real>, normals: array<real>,
                    faces: array<int>, texCoords: array<real>)
    requires g.Valid() && points != normals && texCoords != normals && PointsOk(g, points[..], scale, h)
    requires normals.Length == 3 * g.Triangles() && faces.Length == 9 * g.Triangles()
    modifies normals, faces
    ensures NormalsOk(g, normals[..], scale, h, n) && FacesOk(g, faces[..])
    ensures points[..] == old(points[..]) && texCoords[..] == old(texCoords[..])
  {
    hide Filled, FacesFilled, Grid.Vertices, Grid.Triangles, Index, Vertex, NormalOf, At;
    ghost var f, m := Vertex(g, scale, h), NormalOf(g, scale, h, n);
    var normalCount: nat := 0;
    NothingFilled(normals[..], m);
    NothingSet(g, [], faces[..]);
    AtNext(0, 0, g.nx);
    for y := 0 to g.ny
      invariant normalCount == 2 * At(y, 0, g.nx) && PointsOk(g, points[..], scale, h)
      invariant Filled(normals[..], normalCount, m) && FacesFilled(g, faces[..], normalCount)
      invariant points[..] == old(points[..]) && texCoords[..] == old(texCoords[..])
    {
      for x := 0 to g.nx
        invariant normalCount == 2 * At(y, x, g.nx) && PointsOk(g, points[..], scale, h)
        invariant Filled(normals[..], normalCount, m) && FacesFilled(g, faces[..], normalCount)
        invariant points[..] == old(points[..]) && texCoords[..] == old(texCoords[..])
      {
        CellCorners(g, y, x);
        AtNext(y, x, g.nx);
        AtNext(y, x + 1, g.nx);
        var p00 := At(y, x, g.nx + 1);
        var p01, p10 := p00 + 1, p00 + (g.nx + 1);
        var p11 := p10 + 1;
        var index := At(y, x, g.nx) * 9 * 2;
        AddTriangle(g, scale, h, n, points, normals, faces, index, p00, p10, p11, normalCount);
        normalCount := normalCount + 1;
        index := index + 9;
        AddTriangle(g, scale, h, n, points, normals, faces, index, p11, p01, p00, normalCount);
        normalCount := normalCount + 1;
      }
      AtNext(y, 0, g.nx);
      AtNext(y, g.nx, g.nx);
    }
    AllTriangles(g);
  }

  lemma AllTriangles(g: Grid)
    ensures 2 * At(g.ny, 0, g.nx) == g.Triangles()
  {
  }

  // ---- Where the points are ----

  // The grid spans -10 to 10 both ways, in steps of one size, and the height is taken there;
  // all is scaled alike.
  lemma OnSurface(g: Grid, scale: real, h: Height, y: nat, x: nat)
    requires g.Valid()
    ensures var u, v := 20.0 * (x as real / g.nx as real) - 10.0, 20.0 * (y as real / g.ny as real) - 10.0;
            PointAt(g, scale, h, y, x) == Vec(u * scale, v * scale, h(u, v) * scale)
  {
    AlongIs(x, g.nx);
    AlongIs(y, g.ny);
  }

  lemma AlongIs(i: nat, n: nat)
    requires n > 0
    ensures Along(i, n) == 20.0 * (i as real / n as real) - 10.0
  {
  }

  // The texture lies flat on it: u along x and v along y.
  lemma TextureFollows(g: Grid, points: seq<real>, tex: seq<real>, scale: real, h: Height, k: nat)
    requires g.Valid() && k < g.Vertices() && PointsOk(g, points, scale, h) && TexFilled(g, tex, g.Vertices())
    ensures 2 * k + 1 < |tex| && 3 * k + 2 < |points|
    ensures points[3 * k] == (20.0 * tex[2 * k] - 10.0) * scale
    ensures points[3 * k + 1] == (20.0 * tex[2 * k + 1] - 10.0) * scale
    ensures points[3 * k + 2] == h(20.0 * tex[2 * k] - 10.0, 20.0 * tex[2 * k + 1] - 10.0) * scale
  {
    hide PointAt, Grid.Vertices, Vertex, TexFilled, PointsOk, TexHolds;
    HeldAt(g, points, tex, scale, h, k);
    VertexIs(g, scale, h, k);
    var y, x := k / (g.nx + 1), k % (g.nx + 1);
    SurfaceAt(g, scale, h, y, x, x as real / g.nx as real, y as real / g.ny as real);
  }

  lemma HeldAt(g: Grid, points: seq<real>, tex: seq<real>, scale: real, h: Height, k: nat)
    requires g.Valid() && k < g.Vertices() && PointsOk(g, points, scale, h) && TexFilled(g, tex, g.Vertices())
    ensures 2 * k + 1 < |tex| && Holds3(points, k, Vertex(g, scale, h)(k))
    ensures tex[2 * k] == (k % (g.nx + 1)) as real / g.nx as real
    ensures tex[2 * k + 1] == (k / (g.nx + 1)) as real / g.ny as real
  {
    hide Grid.Vertices, Vertex, Holds3;
    assert TexHolds(g, tex, k);
  }

  lemma VertexIs(g: Grid, scale: real, h: Height, k: nat)
    requires g.Valid()
    ensures Vertex(g, scale, h)(k) == PointAt(g, scale, h, k / (g.nx + 1), k % (g.nx + 1))
  {
    hide PointAt;
  }

  lemma SurfaceAt(g: Grid, scale: real, h: Height, y: nat, x: nat, u: real, v: real)
    requires g.Valid() && u == x as real / g.nx as real && v == y as real / g.ny as real
    ensures PointAt(g, scale, h, y, x) ==
            Vec((20.0 * u - 10.0) * scale, (20.0 * v - 10.0) * scale, h(20.0 * u - 10.0, 20.0 * v - 10.0) * scale)
  {
    hide PointAt;
    OnSurface(g, scale, h, y, x);
  }

  // The normals of a cell are those of p00 p10 p11 and of p11 p01 p00.
  lemma CellNormals(g: Grid, scale: real, h: Height, n: Normal, y: nat, x: nat)
    requires g.Valid() && y < g.ny && x < g.nx
    ensures var m, t := NormalOf(g, scale, h, n), 2 * At(y, x, g.nx);
            && m(t) == n(PointAt(g, scale, h, y, x), PointAt(g, scale, h, y + 1, x), PointAt(g, scale, h, y + 1, x + 1))
            && m(t + 1) ==
               n(PointAt(g, scale, h, y + 1, x + 1), PointAt(g, scale, h, y, x + 1), PointAt(g, scale, h, y, x))
  {
    hide PointAt, Vertex, Index, NormalOf, At, Grid.Triangles, Grid.Vertices;
    var t, w := 2 * At(y, x, g.nx), g.nx + 1;
    CellCorners(g, y, x);
    AtNext(y, x, w);
    AtNext(y, x + 1, w);
    AtNext(y + 1, x, w);
    AtNext(y + 1, x + 1, w);
    VertexAt(g, scale, h, y, x);
    VertexAt(g, scale, h, y, x + 1);
    VertexAt(g, scale, h, y + 1, x);
    VertexAt(g, scale, h, y + 1, x + 1);
    NormalAt(g, scale, h, n, t);
    NormalAt(g, scale, h, n, t + 1);
  }

  // Recomputing a mesh in place gives the arrays that a fresh build gives.
  method RecomputeIsRebuild(g: Grid, scale: real, h: Height, h': Height, n: Normal)
    returns (points: array<real>, normals: array<real>, faces: array<int>,
             points': array<real>, normals': array<real>, faces': array<int>)
    requires g.Valid()
    ensures points[..] == points'[..] && normals[..] == normals'[..] && faces[..] == faces'[..]
    ensures PointsOk(g, points[..], scale, h') && NormalsOk(g, normals[..], scale, h', n)
  {
    hide Filled, FacesFilled, Grid.Vertices, Grid.Triangles, Index, Vertex, NormalOf;
    var texCoords, texCoords';
    points, texCoords, normals, faces := BuildTriangleMesh(g, scale, h, n);
    ComputeMesh(g, scale, h', n, points, normals, faces);
    points', texCoords', normals', faces' := BuildTriangleMesh(g, scale, h', n);
    OnlyOne(points[..], points'[..], g.Vertices(), Vertex(g, scale, h'));
    OnlyOne(normals[..], normals'[..], g.Triangles(), NormalOf(g, scale, h', n));
    OnlyFaces(g, faces[..], faces'[..]);
  }
}
