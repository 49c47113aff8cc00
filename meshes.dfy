/** The three parallel vertex streams (`points`, `normals`, `colors`) as a value,
    the triangle and quad fragments the emitters push, and `Sweep`, the
    contents a `for (i = 0; i < n; i++)` loop appends when iteration i pushes
    `step(i)`. */
module Meshes {
  import opened Vectors

  datatype Mesh = Mesh(points: seq<Vec4>, normals: seq<Normal>, colors: seq<Color>) {

    /** The three streams are in lockstep: index i of each describes one vertex. */
    predicate Valid() {
      |points| == |normals| && |normals| == |colors|
    }

    function Size(): nat {
      |points|
    }

    /** Pushing `m` onto all three streams. */
    function Append(m: Mesh): (r: Mesh)
      ensures r.Size() == Size() + m.Size()
      ensures Valid() && m.Valid() ==> r.Valid()
    {
      Mesh(points + m.points, normals + m.normals, colors + m.colors)
    }
  }

  const Empty: Mesh := Mesh([], [], [])

  function Triangle(a: Vec4, b: Vec4, c: Vec4, na: Normal, nb: Normal, nc: Normal, color: Color): (m: Mesh)
    ensures m.Valid() && m.Size() == 3 && Colored(m, color)
  {
    Mesh([a, b, c], [na, nb, nc], [color, color, color])
  }

  /** A quad with corners f0 f1 f2 f3, split as the triangles [f0, f1, f2] and
      [f0, f2, f3]; corner k carries normal nk. */
  function Quad(f0: Vec4, f1: Vec4, f2: Vec4, f3: Vec4,
                n0: Normal, n1: Normal, n2: Normal, n3: Normal, color: Color): (m: Mesh)
    ensures m.Valid() && m.Size() == 6 && Colored(m, color)
  {
    Mesh([f0, f1, f2, f0, f2, f3], [n0, n1, n2, n0, n2, n3], [color, color, color, color, color, color])
  }

  /** A quad whose six vertices share one normal. */
  function FlatQuad(f0: Vec4, f1: Vec4, f2: Vec4, f3: Vec4, n: Normal, color: Color): Mesh {
    Quad(f0, f1, f2, f3, n, n, n, n, color)
  }

  /** What iterations 0 .. n-1 of a loop append when iteration i appends `step(i)`. */
  function Sweep(n: nat, step: nat -> Mesh): Mesh
    decreases n, 1
  {
    Run(Loop(n, step))
  }

  /** A `for` loop: the number of iterations and what iteration i pushes.
      `Sweep` recurses through this record rather than on itself so that a
      loop with a literal count, such as the six faces of a cube, is unfolded
      one iteration at a time as a proof asks for it, not all at once. */
  datatype Loop = Loop(count: nat, body: nat -> Mesh)

  /** The loop's earlier iterations, then its last one. */
  function Run(loop: Loop): Mesh
    decreases loop.count, 0
  {
    if loop.count == 0 then Empty else Sweep(loop.count - 1, loop.body).Append(loop.body(loop.count - 1))
  }

  /** A loop of no iterations pushes nothing; one more iteration pushes its
      fragment after the earlier ones. */
  lemma SweepNext(n: nat, step: nat -> Mesh)
    ensures Sweep(0, step) == Empty
    ensures Sweep(n + 1, step) == Sweep(n, step).Append(step(n))
  {
    assert Sweep(0, step) == Run(Loop(0, step));
    assert Sweep(n + 1, step) == Run(Loop(n + 1, step));
  }

  /** Every one of the first n steps is a lockstep fragment of k vertices. */
  ghost predicate Steps(n: nat, step: nat -> Mesh, k: nat) {
    forall i :: 0 <= i < n ==> step(i).Valid() && step(i).Size() == k
  }

  /** Every colour in the mesh is `c`. */
  ghost predicate Colored(m: Mesh, c: Color) {
    forall j :: 0 <= j < |m.colors| ==> m.colors[j] == c
  }

  lemma AppendAssoc(a: Mesh, b: Mesh, c: Mesh)
    ensures a.Append(b).Append(c) == a.Append(b.Append(c))
  {
    assert a.points + b.points + c.points == a.points + (b.points + c.points);
    assert a.normals + b.normals + c.normals == a.normals + (b.normals + c.normals);
    assert a.colors + b.colors + c.colors == a.colors + (b.colors + c.colors);
  }

  /** Pushing three fragments one by one is pushing their concatenation. */
  lemma AppendThree(s: Mesh, a: Mesh, b: Mesh, c: Mesh)
    ensures s.Append(a).Append(b).Append(c) == s.Append(a.Append(b).Append(c))
  {
    AppendAssoc(s, a, b);
    AppendAssoc(s, a.Append(b), c);
  }

  /** Pushing four fragments one by one is pushing their concatenation. */
  lemma AppendFour(s: Mesh, a: Mesh, b: Mesh, c: Mesh, d: Mesh)
    ensures s.Append(a).Append(b).Append(c).Append(d) == s.Append(a.Append(b).Append(c).Append(d))
  {
    AppendThree(s, a, b, c);
    AppendAssoc(s, a.Append(b).Append(c), d);
  }

  /** A push grows the point stream by the fragment's size. */
  lemma AppendGrows(before: Mesh, part: Mesh, after: Mesh)
    requires after == before.Append(part)
    ensures |after.points| == |before.points| + part.Size()
  {
  }

  /** `p` sits in `m` from vertex `o` on: its three streams are the slices
      [o, o + p.Size()) of m's. */
  predicate Spans(m: Mesh, o: nat, p: Mesh) {
    m.Valid() && p.Valid() && o + p.Size() <= m.Size() &&
    m.points[o..o + p.Size()] == p.points &&
    m.normals[o..o + p.Size()] == p.normals &&
    m.colors[o..o + p.Size()] == p.colors
  }

  /** Vertex j of `p` is vertex o + j of `m`. */
  lemma SpansAt(m: Mesh, o: nat, p: Mesh, j: nat)
    requires Spans(m, o, p) && j < p.Size()
    ensures o + j < m.Size()
    ensures m.points[o + j] == p.points[j] && m.normals[o + j] == p.normals[j] && m.colors[o + j] == p.colors[j]
  {
    var e := o + p.Size();
    assert m.points[o..e][j] == m.points[o + j];
    assert m.normals[o..e][j] == m.normals[o + j];
    assert m.colors[o..e][j] == m.colors[o + j];
  }

  /** A push leaves what is already in the buffer where it was. */
  lemma SpansAppend(m: Mesh, o: nat, p: Mesh, q: Mesh)
    requires Spans(m, o, p) && q.Valid()
    ensures Spans(m.Append(q), o, p)
  {
    var e := o + p.Size();
    assert (m.points + q.points)[o..e] == m.points[o..e];
    assert (m.normals + q.normals)[o..e] == m.normals[o..e];
    assert (m.colors + q.colors)[o..e] == m.colors[o..e];
  }

  /** What is pushed lands right after what was there. */
  lemma SpansPushed(m: Mesh, q: Mesh)
    requires m.Valid() && q.Valid()
    ensures Spans(m.Append(q), m.Size(), q)
  {
    var e := m.Size() + q.Size();
    assert (m.points + q.points)[m.Size()..e] == q.points;
    assert (m.normals + q.normals)[m.Size()..e] == q.normals;
    assert (m.colors + q.colors)[m.Size()..e] == q.colors;
  }

  lemma AppendEmpty(a: Mesh)
    ensures Empty.Append(a) == a && a.Append(Empty) == a
  {
    assert [] + a.points == a.points && a.points + [] == a.points;
    assert [] + a.normals == a.normals && a.normals + [] == a.normals;
    assert [] + a.colors == a.colors && a.colors + [] == a.colors;
  }

  lemma AppendColored(a: Mesh, b: Mesh, c: Color)
    requires Colored(a, c) && Colored(b, c)
    ensures Colored(a.Append(b), c)
  {
    var s := a.colors + b.colors;
    forall j | 0 <= j < |s| ensures s[j] == c {
      if j >= |a.colors| {
        assert s[j] == b.colors[j - |a.colors|];
      }
    }
  }

  lemma MulMono(a: nat, b: nat, k: nat)
    requires a <= b
    ensures a * k <= b * k
  {
  }

  /** A loop whose every iteration pushes k lockstep vertices pushes n*k of them. */
  lemma {:induction false} SweepSize(n: nat, step: nat -> Mesh, k: nat)
    requires Steps(n, step, k)
    ensures Sweep(n, step).Valid() && Sweep(n, step).Size() == n * k
  {
    SweepNext(0, step);
    if n > 0 {
      SweepNext(n - 1, step);
      SweepSize(n - 1, step, k);
      assert step(n - 1).Valid() && step(n - 1).Size() == k;
      assert (n - 1) * k + k == n * k;
    }
  }

  /** Vertex r of iteration i lands at index i*k + r of what the loop pushed. */
  lemma {:induction false} SweepAt(n: nat, step: nat -> Mesh, k: nat, i: nat, r: nat)
    requires Steps(n, step, k) && i < n && r < k
    ensures Sweep(n, step).Valid() && i * k + r < Sweep(n, step).Size()
    ensures Sweep(n, step).points[i * k + r] == step(i).points[r]
    ensures Sweep(n, step).normals[i * k + r] == step(i).normals[r]
    ensures Sweep(n, step).colors[i * k + r] == step(i).colors[r]
  {
    SweepSize(n, step, k);
    SweepSize(n - 1, step, k);
    SweepNext(n - 1, step);
    var prev := Sweep(n - 1, step);
    assert step(n - 1).Valid() && step(n - 1).Size() == k;
    assert (n - 1) * k + k == n * k;
    if i < n - 1 {
      SweepAt(n - 1, step, k, i, r);
      MulMono(i + 1, n - 1, k);
      assert i * k + k == (i + 1) * k;
    } else {
      assert i * k == prev.Size();
    }
  }

  /** Index j of what the loop pushed is vertex j % k of iteration j / k. */
  lemma SweepIndex(n: nat, step: nat -> Mesh, k: nat, j: nat)
    requires Steps(n, step, k) && j < n * k
    ensures Sweep(n, step).Valid() && Sweep(n, step).Size() == n * k && k > 0
    ensures Sweep(n, step).points[j] == step(j / k).points[j % k]
    ensures Sweep(n, step).normals[j] == step(j / k).normals[j % k]
    ensures Sweep(n, step).colors[j] == step(j / k).colors[j % k]
  {
    SweepSize(n, step, k);
    var q, r := j / k, j % k;
    assert j == q * k + r && 0 <= r < k;
    if q >= n {
      MulMono(n, q, k);
      assert false;
    }
    SweepAt(n, step, k, q, r);
  }

  /** Index r of four fragments pushed one after another. */
  lemma At4(a: Mesh, b: Mesh, c: Mesh, d: Mesh, r: nat)
    requires a.Valid() && b.Valid() && c.Valid() && d.Valid()
    requires r < a.Size() + b.Size() + c.Size() + d.Size()
    ensures var m := a.Append(b).Append(c).Append(d);
      var (s, k) := if r < a.Size() then (a, r) else if r < a.Size() + b.Size() then (b, r - a.Size())
        else if r < a.Size() + b.Size() + c.Size() then (c, r - a.Size() - b.Size())
        else (d, r - a.Size() - b.Size() - c.Size());
      0 <= k < s.Size() && m.points[r] == s.points[k] && m.normals[r] == s.normals[k] && m.colors[r] == s.colors[k]
  {
  }

  /** If every iteration pushes only colour c, so does the loop. */
  lemma {:induction false} SweepColored(n: nat, step: nat -> Mesh, c: Color)
    requires forall i :: 0 <= i < n ==> Colored(step(i), c)
    ensures Colored(Sweep(n, step), c)
  {
    if n == 0 {
      SweepNext(0, step);
      assert Sweep(n, step).colors == [];
    } else {
      SweepNext(n - 1, step);
      SweepColored(n - 1, step, c);
      AppendColored(Sweep(n - 1, step), step(n - 1), c);
    }
  }
}
