/** The graphics context the camera draws through (moderngl in the program),
    reduced to what the camera can observe of it: the handles it hands out, the
    depth-test switch, and the log of calls made on it. Buffers, vertex arrays,
    programs and textures are opaque handles; releasing one is a logged call. */
module Gl {
  import opened Wrappers

  newtype byte = b: int | 0 <= b < 256

  type Handle = nat

  /** A value bound to a shader uniform. */
  datatype UniformValue = IntValue(i: int) | FloatValue(f: real) | TupleValue(items: seq<real>)

  /** What a newly created GPU object is. */
  datatype ObjectKind =
    | BufferObject(data: seq<byte>)
    | VertexArrayObject(program: Handle, vbo: Handle, ibo: Option<Handle>)
    | ProgramObject(programId: string)
    | TextureObject(path: string)

  /** One call on the context, in the order it was made. */
  datatype Event =
    | Create(handle: Handle, kind: ObjectKind)
    | Release(handle: Handle)
    | UseTexture(texture: Handle, location: nat)
    | SetUniform(program: Handle, name: string, value: UniformValue)
    | DepthTest(enabled: bool)
    | Draw(vao: Handle, primitive: int, depthTest: bool)

  /** The context's observable state: the next handle it will hand out, whether depth
      testing is on, and every call made so far. */
  datatype GpuLog = GpuLog(next: Handle, depthTest: bool, events: seq<Event>)

  function Allocate(g: GpuLog, kind: ObjectKind): GpuLog
  {
    GpuLog(g.next + 1, g.depthTest, g.events + [Create(g.next, kind)])
  }

  function Emit(g: GpuLog, e: Event): GpuLog
  {
    g.(events := g.events + [e])
  }

  /** `ctx.enable(DEPTH_TEST)` / `ctx.disable(DEPTH_TEST)`. */
  function SetDepthTest(g: GpuLog, enabled: bool): GpuLog
  {
    GpuLog(g.next, enabled, g.events + [DepthTest(enabled)])
  }

  /** The handles released somewhere in a log. */
  function ReleasedIn(events: seq<Event>): (r: set<Handle>)
    ensures forall h :: h in r <==> Release(h) in events
  {
    set e | e in events && e.Release? :: e.handle
  }

  lemma ReleasedInAppend(a: seq<Event>, b: seq<Event>)
    ensures ReleasedIn(a + b) == ReleasedIn(a) + ReleasedIn(b)
  {
    assert forall h :: Release(h) in a + b <==> Release(h) in a || Release(h) in b;
  }

  lemma ReleasedInPrefix(a: seq<Event>, b: seq<Event>)
    requires a <= b
    ensures ReleasedIn(a) <= ReleasedIn(b)
  {
    assert forall i :: 0 <= i < |a| ==> a[i] == b[i];
  }

  /** `b` extends `a` by releases alone. */
  predicate ReleasesOnly(a: seq<Event>, b: seq<Event>)
  {
    a <= b && forall e :: e in b[|a|..] ==> e.Release?
  }

  lemma ReleasesOnlyTransitive(a: seq<Event>, b: seq<Event>, c: seq<Event>)
    requires ReleasesOnly(a, b) && ReleasesOnly(b, c)
    ensures ReleasesOnly(a, c)
  {
    assert c[|a|..] == b[|a|..] + c[|b|..];
  }

  /** A stretch of calls that neither releases nor draws anything. */
  predicate Quiet(events: seq<Event>)
  {
    forall e :: e in events ==> !e.Release? && !e.Draw?
  }

  /** The vertex arrays drawn in a log, in draw order. */
  function Draws(events: seq<Event>): (r: seq<Handle>)
    ensures |r| <= |events|
  {
    if events == [] then []
    else (if events[0].Draw? then [events[0].vao] else []) + Draws(events[1..])
  }

  lemma {:induction false} DrawsAppend(a: seq<Event>, b: seq<Event>)
    ensures Draws(a + b) == Draws(a) + Draws(b)
  {
    if a == [] {
      assert a + b == b;
    } else {
      assert (a + b)[0] == a[0];
      assert (a + b)[1..] == a[1..] + b;
      DrawsAppend(a[1..], b);
      var head := if a[0].Draw? then [a[0].vao] else [];
      assert Draws(a + b) == head + Draws(a[1..] + b);
      assert Draws(a) == head + Draws(a[1..]);
    }
  }

  lemma ConcatAssoc<T>(a: seq<T>, b: seq<T>, c: seq<T>)
    ensures (a + b) + c == a + (b + c)
  {
  }

  lemma UnionAssoc<T>(a: set<T>, b: set<T>, c: set<T>)
    ensures (a + b) + c == a + (b + c)
  {
  }

  /** A stretch without draw calls draws nothing. */
  lemma {:induction false} DrawsNone(events: seq<Event>)
    requires forall e :: e in events ==> !e.Draw?
    ensures Draws(events) == []
  {
    if events != [] {
      assert events[0] in events;
      assert forall e :: e in events[1..] ==> e in events;
      DrawsNone(events[1..]);
    }
  }

  /** Extending a log by quiet calls changes neither what is released nor what is drawn. */
  lemma QuietExtension(a: seq<Event>, b: seq<Event>)
    requires a <= b && Quiet(b[|a|..])
    ensures ReleasedIn(b) == ReleasedIn(a) && Draws(b) == Draws(a)
  {
    var tail := b[|a|..];
    assert b == a + tail;
    ReleasedInAppend(a, tail);
    DrawsAppend(a, tail);
    DrawsNone(tail);
    assert ReleasedIn(tail) == {};
  }

  /** The value a program's uniform holds after a log: the last one set. */
  function UniformAt(events: seq<Event>, program: Handle, name: string): Option<UniformValue>
  {
    if events == [] then None
    else
      var e := events[|events| - 1];
      if e.SetUniform? && e.program == program && e.name == name then Some(e.value)
      else UniformAt(events[..|events| - 1], program, name)
  }

  lemma {:induction false} UniformAtAppend(a: seq<Event>, b: seq<Event>, program: Handle, name: string)
    ensures UniformAt(a + b, program, name)
         == if UniformAt(b, program, name).Some? then UniformAt(b, program, name) else UniformAt(a, program, name)
    decreases |b|
  {
    if b == [] {
      assert a + b == a;
    } else {
      assert (a + b)[..|a + b| - 1] == a + b[..|b| - 1];
      UniformAtAppend(a, b[..|b| - 1], program, name);
    }
  }

  /** Calls that assign nothing to a program's uniform leave the value it holds alone. */
  lemma {:induction false} UniformAtUnaffected(a: seq<Event>, b: seq<Event>, program: Handle, name: string)
    requires a <= b
    requires forall e :: e in b[|a|..] ==> !(e.SetUniform? && e.program == program && e.name == name)
    ensures UniformAt(b, program, name) == UniformAt(a, program, name)
    decreases |b|
  {
    if |b| == |a| {
      assert b == a;
    } else {
      var init := b[..|b| - 1];
      assert b[|b| - 1] in b[|a|..];
      assert init[|a|..] == b[|a|..|b| - 1];
      assert forall e :: e in init[|a|..] ==> e in b[|a|..];
      UniformAtUnaffected(a, init, program, name);
    }
  }

  /** The context object: every method appends its call to the log. */
  class Context {
    var next: Handle
    var depthTest: bool
    var events: seq<Event>

    function Log(): GpuLog
      reads this
    {
      GpuLog(next, depthTest, events)
    }

    constructor ()
      ensures Log() == GpuLog(0, false, [])
    {
      next, depthTest, events := 0, false, [];
    }

    /** `ctx.buffer`, `ctx.vertex_array`, `ctx.program`, `ctx.texture`. */
    method NewObject(kind: ObjectKind) returns (h: Handle)
      modifies this
      ensures h == old(next)
      ensures Log() == Allocate(old(Log()), kind)
    {
      h := next;
      events := events + [Create(h, kind)];
      next := next + 1;
    }

    /** `obj.release()`. */
    method ReleaseObject(h: Handle)
      modifies this
      ensures Log() == Emit(old(Log()), Release(h))
    {
      events := events + [Release(h)];
    }

    /** `texture.use(location=...)`. */
    method UseTextureAt(texture: Handle, location: nat)
      modifies this
      ensures Log() == Emit(old(Log()), UseTexture(texture, location))
    {
      events := events + [UseTexture(texture, location)];
    }

    /** `program[name].value = value`. */
    method AssignUniform(program: Handle, name: string, value: UniformValue)
      modifies this
      ensures Log() == Emit(old(Log()), SetUniform(program, name, value))
    {
      events := events + [SetUniform(program, name, value)];
    }

    method EnableDepthTest(enabled: bool)
      modifies this
      ensures Log() == SetDepthTest(old(Log()), enabled)
    {
      depthTest := enabled;
      events := events + [DepthTest(enabled)];
    }

    /** `vao.render(primitive)`: the draw is logged with the depth-test state it ran under. */
    method Render(vao: Handle, primitive: int)
      modifies this
      ensures Log() == Emit(old(Log()), Draw(vao, primitive, old(depthTest)))
    {
      events := events + [Draw(vao, primitive, depthTest)];
    }
  }
}
