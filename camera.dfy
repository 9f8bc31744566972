/** The `Camera` object: its caches and static render index are fields the methods
    update in place, and every call into the graphics context goes through `ctx`.
    Each method is proved to leave exactly the state (and return exactly the result
    or error) that its function in `CameraSpec` describes; what those functions
    promise is proved in `CameraLemmas`. */
module CameraImpl {
  import opened Wrappers
  import opened Dict
  import opened Gl
  import opened Shader
  import opened Frame
  import opened Perspective
  import opened CameraSpec

  class Camera {
    const frame: CameraFrame
    const ctx: Context
    /** The viewport size, `get_pixel_shape()`. */
    const pixelWidth: nat
    const pixelHeight: nat
    /** Measured in pixel widths. */
    const antiAliasWidth: real
    const lightSource: Point

    var nTextures: nat
    var pathToTexture: map<string, TextureEntry>
    var idToShaderProgram: map<string, Option<ProgramEntry>>
    var staticIndex: Dict<MobjectId, seq<RenderGroup>>
    var perspectiveUniforms: Uniforms

    /** The camera's bookkeeping together with the context's log. */
    function State(): CameraState
      reads this, ctx
    {
      CameraState(ctx.Log(), nTextures, pathToTexture, idToShaderProgram, staticIndex, perspectiveUniforms)
    }

    ghost predicate Valid()
      reads this, ctx, frame, frame.eulerAngles
    {
      && frame.Valid()
      && pixelWidth > 0 && pixelHeight > 0
      && Consistent(State())
    }

    /** The uniforms `refresh_perspective_uniforms` computes from the frame as it is now. */
    function FramePerspective(): Uniforms
      reads this, frame
      requires |frame.points| == 5 && Height(frame.points) != 0.0 && pixelHeight > 0
    {
      PerspectiveUniforms(frame.points, frame.inverseCameraRotationMatrix, frame.focalDistance,
                          pixelHeight, antiAliasWidth, lightSource)
    }

    /** `__init__` with a given frame and context: `init_shaders`, `init_textures`,
        `refresh_perspective_uniforms` and an empty static index. */
    constructor (frame: CameraFrame, ctx: Context, pixelWidth: nat, pixelHeight: nat,
                 antiAliasWidth: real, lightSource: Point)
      requires frame.Valid() && pixelWidth > 0 && pixelHeight > 0
      ensures this.frame == frame && this.ctx == ctx
      ensures this.pixelWidth == pixelWidth && this.pixelHeight == pixelHeight
      ensures this.antiAliasWidth == antiAliasWidth && this.lightSource == lightSource
      ensures Valid()
      ensures State() == Initial(ctx.Log(), FramePerspective())
    {
      this.frame := frame;
      this.ctx := ctx;
      this.pixelWidth := pixelWidth;
      this.pixelHeight := pixelHeight;
      this.antiAliasWidth := antiAliasWidth;
      this.lightSource := lightSource;
      idToShaderProgram := map["" := None];
      nTextures := 0;
      pathToTexture := map[];
      perspectiveUniforms := PerspectiveUniforms(frame.points, frame.inverseCameraRotationMatrix,
                                                 frame.focalDistance, pixelHeight, antiAliasWidth, lightSource);
      staticIndex := [];
    }

    // ---- Textures ----

    /** `get_texture_id(path)`. */
    method GetTextureId(path: string) returns (tid: nat)
      modifies this, ctx
      ensures (State(), tid) == TextureRequest(old(State()), path)
    {
      if path !in pathToTexture {
        var next := nTextures;
        nTextures := nTextures + 1;
        var texture := ctx.NewObject(TextureObject(path));
        ctx.UseTextureAt(texture, next);
        pathToTexture := pathToTexture[path := TextureEntry(next, texture)];
      }
      tid := pathToTexture[path].tid;
    }

    /** `release_texture(path)`. */
    method ReleaseTexture(path: string)
      modifies this, ctx
      ensures State() == TextureRelease(old(State()), path)
    {
      if path in pathToTexture {
        var entry := pathToTexture[path];
        pathToTexture := pathToTexture - {path};
        ctx.ReleaseObject(entry.texture);
      }
    }

    // ---- Programs ----

    /** `get_shader_program(wrapper)`. */
    method GetShaderProgram(w: ShaderWrapper) returns (entry: Option<ProgramEntry>)
      modifies this, ctx
      ensures (State(), entry) == ProgramLookup(old(State()), w)
    {
      var sid := w.programId;
      if sid !in idToShaderProgram {
        var h := ctx.NewObject(ProgramObject(sid));
        idToShaderProgram := idToShaderProgram[sid := Some(ProgramEntry(Program(h, w.programCode.members), VertexFormat(h, w.vertAttributes)))];
      }
      entry := idToShaderProgram[sid];
    }

    // ---- Render groups ----

    /** `get_render_group(wrapper, single_use)`. */
    method GetRenderGroup(w: ShaderWrapper, singleUse: bool) returns (res: Result<RenderGroup>)
      modifies this, ctx
      ensures Step(State(), res) == BuildGroup(old(State()), w, singleUse)
    {
      var vbo := ctx.NewObject(BufferObject(w.vertData));
      var ibo: Option<Handle> := None;
      if w.vertIndices.Some? {
        var data := EncodeI4(w.vertIndices.value);
        if data != [] {
          var h := ctx.NewObject(BufferObject(data));
          ibo := Some(h);
        }
      }
      var entry := GetShaderProgram(w);
      if entry.None? {
        res := Err(NoProgram(w.programId));
      } else {
        var vao := ctx.NewObject(VertexArrayObject(entry.value.program.handle, vbo, ibo));
        res := Ok(RenderGroup(vbo, ibo, vao, entry.value.program, w, singleUse));
      }
    }

    /** `release_render_group(group)`: releases each of vbo, ibo, vao that is not `None`. */
    method ReleaseRenderGroup(rg: RenderGroup)
      modifies ctx
      ensures State() == ReleaseGroup(old(State()), rg)
    {
      var hs := GroupHandles(rg);
      for i := 0 to |hs|
        invariant ReleaseHandles(ctx.Log(), hs[i..]) == ReleaseHandles(old(ctx.Log()), hs)
      {
        if hs[i].Some? {
          ctx.ReleaseObject(hs[i].value);
        }
      }
    }

    // ---- Drawing ----

    /** `set_shader_uniforms(program, wrapper)`: texture ids first, then the wrapper's
        uniforms and the perspective uniforms, skipping names the program lacks. */
    method SetShaderUniforms(prog: Program, w: ShaderWrapper) returns (res: Result<()>)
      modifies this, ctx
      ensures Step(State(), res) == CameraSpec.SetShaderUniforms(old(State()), prog, w)
    {
      var paths := w.texturePaths;
      for i := 0 to |paths|
        invariant BindTextures(State(), prog, paths[i..]) == BindTextures(old(State()), prog, paths)
      {
        var (name, path) := paths[i];
        assert paths[i..][1..] == paths[i + 1..];
        var tid := GetTextureId(path);
        if name !in prog.members {
          res := Err(UnknownTextureUniform(name));
          return;
        }
        ctx.AssignUniform(prog.handle, name, IntValue(tid));
      }
      ghost var bound := State();
      assert BindTextures(old(State()), prog, paths) == Step(bound, Ok(()));
      var items := w.uniforms + perspectiveUniforms;
      for j := 0 to |items|
        invariant ctx.Log() == BindUniforms(bound.gpu, prog, items[..j])
        invariant State() == bound.(gpu := ctx.Log())
      {
        assert items[..j + 1][..j] == items[..j];
        var (name, value) := items[j];
        if name in prog.members {
          ctx.AssignUniform(prog.handle, name, value);
        }
      }
      assert items[..|items|] == items;
      res := Ok(());
    }

    /** `update_depth_test(wrapper)`. */
    method UpdateDepthTest(w: ShaderWrapper)
      modifies ctx
      ensures ctx.Log() == SetDepthTest(old(ctx.Log()), w.depthTest)
    {
      ctx.EnableDepthTest(w.depthTest);
    }

    /** `render(group)`. */
    method Render(rg: RenderGroup) returns (res: Result<()>)
      modifies this, ctx
      ensures Step(State(), res) == RenderOne(old(State()), rg)
    {
      res := SetShaderUniforms(rg.prog, rg.shaderWrapper);
      if res.Err? {
        return;
      }
      UpdateDepthTest(rg.shaderWrapper);
      ctx.Render(rg.vao, rg.shaderWrapper.renderPrimitive);
      if rg.singleUse {
        ReleaseRenderGroup(rg);
      }
    }

    /** The groups of one drawable, from `get_render_group_list`, each rendered as it
        comes: the static entry if there is one, else a fresh single-use group per
        wrapper, built only when the previous one has been rendered. */
    method RenderMobject(m: Mobject) returns (res: Result<()>)
      modifies this, ctx
      ensures Step(State(), res) == CameraSpec.RenderMobject(old(State()), m)
    {
      match Lookup(staticIndex, m.id)
      case Some(groups) =>
        for i := 0 to |groups|
          invariant RenderGroups(State(), groups[i..]) == RenderGroups(old(State()), groups)
        {
          assert groups[i..][1..] == groups[i + 1..];
          res := Render(groups[i]);
          if res.Err? {
            return;
          }
        }
        res := Ok(());
      case None =>
        var ws := m.shaderWrappers;
        for i := 0 to |ws|
          invariant RenderFresh(State(), ws[i..]) == RenderFresh(old(State()), ws)
        {
          assert ws[i..][1..] == ws[i + 1..];
          var built := GetRenderGroup(ws[i], true);
          if built.Err? {
            res := Err(built.error);
            return;
          }
          res := Render(built.value);
          if res.Err? {
            return;
          }
        }
        res := Ok(());
    }

    /** `refresh_perspective_uniforms()`. */
    method RefreshPerspectiveUniforms()
      requires |frame.points| == 5 && Height(frame.points) != 0.0 && pixelHeight > 0
      modifies this
      ensures perspectiveUniforms == FramePerspective()
      ensures nTextures == old(nTextures) && pathToTexture == old(pathToTexture)
      ensures idToShaderProgram == old(idToShaderProgram) && staticIndex == old(staticIndex)
    {
      perspectiveUniforms := FramePerspective();
    }

    /** `capture(*mobjects)`. */
    method Capture(ms: seq<Mobject>) returns (res: Result<()>)
      requires Valid()
      modifies this, ctx
      ensures Valid()
      ensures Step(State(), res) == CameraSpec.Capture(old(State()), old(FramePerspective()), ms)
    {
      RefreshPerspectiveUniforms();
      ghost var start := State();
      assert start == old(State()).(perspectiveUniforms := old(FramePerspective()));
      for i := 0 to |ms|
        invariant RenderMobjects(State(), ms[i..]) == RenderMobjects(start, ms)
      {
        assert ms[i..][1..] == ms[i + 1..];
        res := RenderMobject(ms[i]);
        if res.Err? {
          return;
        }
      }
      res := Ok(());
    }

    /** `resize_frame_shape(fixed_dimension)`: the frame size that matches the pixel
        aspect ratio (keeping the width when `fixedDimension` is 0, else the height). */
    method ResizeFrameShape(fixedDimension: int) returns (width: real, height: real)
      requires Valid()
      ensures var target := ResizeTarget(pixelWidth, pixelHeight, Width(frame.points), Height(frame.points), fixedDimension);
              width == target.0 && height == target.1
    {
      var target := ResizeTarget(pixelWidth, pixelHeight, Width(frame.points), Height(frame.points), fixedDimension);
      width, height := target.0, target.1;
    }

    // ---- Static render index ----

    /** `[get_render_group(sw, single_use=False) for sw in wrappers]`. */
    method GetStaticRenderGroups(ws: seq<ShaderWrapper>) returns (res: Result<seq<RenderGroup>>)
      modifies this, ctx
      ensures Step(State(), res) == BuildGroups(old(State()), ws, false)
    {
      var groups: seq<RenderGroup> := [];
      PrependEmpty(BuildGroups(State(), ws, false));
      assert ws[0..] == ws;
      for j := 0 to |ws|
        invariant BuildGroups(old(State()), ws, false) == Prepend(groups, BuildGroups(State(), ws[j..], false))
      {
        assert ws[j..][1..] == ws[j + 1..];
        BuildGroupsUnfold(State(), ws[j..]);
        var built := GetRenderGroup(ws[j], false);
        if built.Err? {
          res := Err(built.error);
          return;
        }
        PrependStep(groups, built.value, BuildGroups(State(), ws[j + 1..], false));
        groups := groups + [built.value];
      }
      assert ws[|ws|..] == [] && groups + [] == groups;
      res := Ok(groups);
    }

    /** `set_mobjects_as_static(*mobjects)`. */
    method SetMobjectsAsStatic(ms: seq<Mobject>) returns (res: Result<()>)
      modifies this, ctx
      ensures Step(State(), res) == SetStatic(old(State()), ms)
    {
      for i := 0 to |ms|
        invariant SetStatic(State(), ms[i..]) == SetStatic(old(State()), ms)
      {
        assert ms[i..][1..] == ms[i + 1..];
        var built := GetStaticRenderGroups(ms[i].shaderWrappers);
        if built.Err? {
          res := Err(built.error);
          return;
        }
        staticIndex := Put(staticIndex, ms[i].id, built.value);
      }
      res := Ok(());
    }

    /** The inner loop of `release_static_mobjects`. */
    method ReleaseRenderGroups(groups: seq<RenderGroup>)
      modifies ctx
      ensures State() == ReleaseGroups(old(State()), groups)
    {
      for j := 0 to |groups|
        invariant ReleaseGroups(State(), groups[j..]) == ReleaseGroups(old(State()), groups)
      {
        ReleaseGroupsUnfold(State(), groups, j);
        ReleaseRenderGroup(groups[j]);
      }
    }

    /** `release_static_mobjects()`. */
    method ReleaseStaticMobjects()
      modifies this, ctx
      ensures State() == ReleaseStatic(old(State()))
    {
      var entries := staticIndex;
      for i := 0 to |entries|
        invariant staticIndex == entries
        invariant ReleaseEntries(State(), entries[i..]) == ReleaseEntries(old(State()), entries)
      {
        assert entries[i..][1..] == entries[i + 1..];
        ReleaseRenderGroups(entries[i].1);
      }
      staticIndex := [];
    }
  }

  /** Releasing `groups[j..]` is releasing `groups[j]`, then the groups after it. */
  lemma ReleaseGroupsUnfold(st: CameraState, groups: seq<RenderGroup>, j: nat)
    requires j < |groups|
    ensures ReleaseGroups(st, groups[j..]) == ReleaseGroups(ReleaseGroup(st, groups[j]), groups[j + 1..])
  {
    assert groups[j..][1..] == groups[j + 1..];
  }

  /** The result of building `groups` and then the rest. */
  function Prepend(groups: seq<RenderGroup>, rest: Step<seq<RenderGroup>>): Step<seq<RenderGroup>>
  {
    if rest.res.Ok? then Step(rest.st, Ok(groups + rest.res.value)) else Step(rest.st, Err(rest.res.error))
  }

  /** One step of the list comprehension. */
  lemma BuildGroupsUnfold(st: CameraState, ws: seq<ShaderWrapper>)
    requires ws != []
    ensures var b := BuildGroup(st, ws[0], false);
            BuildGroups(st, ws, false)
            == if b.res.Err? then Step(b.st, Err(b.res.error)) else Prepend([b.res.value], BuildGroups(b.st, ws[1..], false))
  {
  }

  lemma PrependEmpty(rest: Step<seq<RenderGroup>>)
    ensures Prepend([], rest) == rest
  {
    if rest.res.Ok? {
      assert [] + rest.res.value == rest.res.value;
    }
  }

  lemma PrependStep(groups: seq<RenderGroup>, g: RenderGroup, rest: Step<seq<RenderGroup>>)
    ensures Prepend(groups, Prepend([g], rest)) == Prepend(groups + [g], rest)
  {
    if rest.res.Ok? {
      assert groups + ([g] + rest.res.value) == groups + [g] + rest.res.value;
    }
  }
}
