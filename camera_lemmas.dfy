/** What the camera's bookkeeping promises across several operations: texture ids
    are never reused, programs are compiled once per id, perspective uniforms
    override a wrapper's, single-use groups are released right after they are
    drawn, static groups survive every capture, and the static index is filled
    and emptied as the drawables ask. */
module CameraLemmas {
  import opened Wrappers
  import opened Dict
  import opened Gl
  import opened Shader
  import opened CameraSpec

  // ---- Texture cache ----

  /** Asking again for a cached path returns the same id and changes nothing. */
  lemma TextureRequestRepeat(st: CameraState, path: string)
    ensures var (st1, tid) := TextureRequest(st, path);
            TextureRequest(st1, path) == (st1, tid)
  {
  }

  /** A new path gets the counter's value, above every cached id, and the counter
      moves on by one. */
  lemma TextureRequestFresh(st: CameraState, path: string)
    requires Consistent(st) && path !in st.pathToTexture
    ensures var (st1, tid) := TextureRequest(st, path);
            && tid == st.nTextures && st1.nTextures == tid + 1
            && (forall p :: p in st.pathToTexture ==> st.pathToTexture[p].tid < tid)
  {
  }

  /** No two cached paths share a texture id. */
  predicate TextureIdsDistinct(st: CameraState)
  {
    forall p, q :: p in st.pathToTexture && q in st.pathToTexture && p != q ==>
      st.pathToTexture[p].tid != st.pathToTexture[q].tid
  }

  lemma TextureIdsStayDistinct(st: CameraState, path: string)
    requires Consistent(st) && TextureIdsDistinct(st)
    ensures TextureIdsDistinct(TextureRequest(st, path).0)
    ensures TextureIdsDistinct(TextureRelease(st, path))
  {
  }

  /** A texture released and asked for again is uploaded anew under a larger id: the
      counter is never wound back. */
  lemma ReacquireAfterRelease(st: CameraState, path: string)
    requires Consistent(st) && path in st.pathToTexture
    ensures var (st2, tid) := TextureRequest(TextureRelease(st, path), path);
            && tid > st.pathToTexture[path].tid
            && tid == st.nTextures
            && st2.gpu.next == st.gpu.next + 1
  {
  }

  // ---- Program cache ----

  /** Two wrappers with the same program id share one cache entry: the second
      lookup finds the first one's and changes nothing. */
  lemma ProgramCompiledOnce(st: CameraState, w1: ShaderWrapper, w2: ShaderWrapper)
    requires w1.programId == w2.programId
    ensures var (st1, e1) := ProgramLookup(st, w1);
            ProgramLookup(st1, w2) == (st1, e1)
  {
  }

  /** The null program id is never compiled, and a group asked of it fails after its
      data buffers were created, which nothing releases. */
  lemma NullProgramFails(st: CameraState, w: ShaderWrapper, singleUse: bool)
    requires Consistent(st) && w.programId == ""
    ensures ProgramLookup(st, w) == (st, None)
    ensures var r := BuildGroup(st, w, singleUse);
            && r.res == Err(NoProgram(""))
            && r.st.gpu.next > st.gpu.next
            && ReleasedIn(r.st.gpu.events) == ReleasedIn(st.gpu.events)
  {
    var r := BuildGroup(st, w, singleUse);
    QuietExtension(st.gpu.events, r.st.gpu.events);
  }

  /** A fresh group whose wrapper names a texture its program does not declare is
      built, then its render raises before `release_render_group`: the capture
      stops and none of that group's handles is released. */
  lemma UnknownTextureLeaks(st: CameraState, ws: seq<ShaderWrapper>, i: nat)
    requires ws != [] && BuildGroup(st, ws[0], true).res.Ok?
    requires i < |ws[0].texturePaths| && ws[0].texturePaths[i].0 !in BuildGroup(st, ws[0], true).res.value.prog.members
    ensures var b := BuildGroup(st, ws[0], true);
            && RenderFresh(st, ws).res.Err?
            && RenderFresh(st, ws).st.gpu.next > st.gpu.next
            && FreshGroups(st, ws) == []
            && ReleasedIn(RenderFresh(st, ws).st.gpu.events) == ReleasedIn(st.gpu.events)
  {
    var b := BuildGroup(st, ws[0], true);
    QuietExtension(st.gpu.events, b.st.gpu.events);
    assert b.res.value.shaderWrapper == ws[0];
  }

  // ---- Uniforms ----

  /** In `dict(a, **b)`-style concatenation, later items win. */
  lemma {:induction false} LastValueAppend(a: Uniforms, b: Uniforms, name: string)
    ensures LastValue(a + b, name) == if LastValue(b, name).Some? then LastValue(b, name) else LastValue(a, name)
    decreases |b|
  {
    if b == [] {
      assert a + b == a;
    } else {
      assert (a + b)[..|a + b| - 1] == a + b[..|b| - 1];
      LastValueAppend(a, b[..|b| - 1], name);
    }
  }

  /** What the uniform loop leaves a name holding: the last value the items give
      it, when the program declares it; otherwise whatever it held before. */
  lemma {:induction false} BindUniformsValue(g: GpuLog, prog: Program, items: Uniforms, name: string)
    ensures UniformAt(BindUniforms(g, prog, items).events, prog.handle, name)
         == if name in prog.members && LastValue(items, name).Some? then LastValue(items, name)
            else UniformAt(g.events, prog.handle, name)
    decreases |items|
  {
    if items != [] {
      var init := items[..|items| - 1];
      var item := items[|items| - 1];
      BindUniformsValue(g, prog, init, name);
      var r := BindUniforms(g, prog, init);
      if item.0 in prog.members {
        var e := r.events + [SetUniform(prog.handle, item.0, item.1)];
        assert e[..|e| - 1] == r.events;
      }
    }
  }

  /** After `set_shader_uniforms`, a declared name the perspective uniforms set holds
      the perspective value, even if the wrapper sets it too. */
  lemma PerspectiveOverrides(st: CameraState, prog: Program, w: ShaderWrapper, name: string)
    requires SetShaderUniforms(st, prog, w).res.Ok?
    requires name in prog.members && LastValue(st.perspectiveUniforms, name).Some?
    ensures UniformAt(SetShaderUniforms(st, prog, w).st.gpu.events, prog.handle, name)
         == LastValue(st.perspectiveUniforms, name)
  {
    var t := BindTextures(st, prog, w.texturePaths);
    LastValueAppend(w.uniforms, t.st.perspectiveUniforms, name);
    BindUniformsValue(t.st.gpu, prog, w.uniforms + t.st.perspectiveUniforms, name);
  }

  /** A declared name only the wrapper sets holds the wrapper's value. */
  lemma WrapperUniformApplied(st: CameraState, prog: Program, w: ShaderWrapper, name: string)
    requires SetShaderUniforms(st, prog, w).res.Ok?
    requires name in prog.members && LastValue(st.perspectiveUniforms, name).None?
    requires LastValue(w.uniforms, name).Some?
    ensures UniformAt(SetShaderUniforms(st, prog, w).st.gpu.events, prog.handle, name)
         == LastValue(w.uniforms, name)
  {
    var t := BindTextures(st, prog, w.texturePaths);
    LastValueAppend(w.uniforms, t.st.perspectiveUniforms, name);
    BindUniformsValue(t.st.gpu, prog, w.uniforms + t.st.perspectiveUniforms, name);
  }

  /** A texture name that no later texture entry reuses, and that neither the
      wrapper's uniforms nor the perspective uniforms set, holds its path's cache id. */
  lemma TextureUniformBound(st: CameraState, prog: Program, w: ShaderWrapper, i: nat)
    requires SetShaderUniforms(st, prog, w).res.Ok?
    requires i < |w.texturePaths|
    requires forall j :: i < j < |w.texturePaths| ==> w.texturePaths[j].0 != w.texturePaths[i].0
    requires LastValue(w.uniforms, w.texturePaths[i].0).None?
    requires LastValue(st.perspectiveUniforms, w.texturePaths[i].0).None?
    ensures var r := SetShaderUniforms(st, prog, w).st;
            UniformAt(r.gpu.events, prog.handle, w.texturePaths[i].0)
              == Some(IntValue(r.pathToTexture[w.texturePaths[i].1].tid))
  {
    var name := w.texturePaths[i].0;
    var t := BindTextures(st, prog, w.texturePaths);
    BindTexturesValues(st, prog, w.texturePaths);
    assert UniformAt(t.st.gpu.events, prog.handle, name) == Some(IntValue(t.st.pathToTexture[w.texturePaths[i].1].tid));
    LastValueAppend(w.uniforms, t.st.perspectiveUniforms, name);
    BindUniformsValue(t.st.gpu, prog, w.uniforms + t.st.perspectiveUniforms, name);
  }

  // ---- Drawing ----

  /** `render` of one group: after the uniforms come the depth-test switch and the
      draw, recorded with the wrapper's depth-test flag, and after the draw nothing
      but the group's releases, which happen exactly when it is single-use. */
  lemma RenderOneSequence(st: CameraState, rg: RenderGroup)
    requires RenderOne(st, rg).res.Ok?
    ensures var u := SetShaderUniforms(st, rg.prog, rg.shaderWrapper).st;
            var r := RenderOne(st, rg).st;
            var dt := rg.shaderWrapper.depthTest;
            && u.gpu.events + [DepthTest(dt), Draw(rg.vao, rg.shaderWrapper.renderPrimitive, dt)] <= r.gpu.events
            && r.gpu.depthTest == dt
            && (forall e :: e in r.gpu.events[|u.gpu.events| + 2..] ==> e.Release?)
            && (rg.singleUse <==> |r.gpu.events| > |u.gpu.events| + 2)
  {
    var u := SetShaderUniforms(st, rg.prog, rg.shaderWrapper).st;
    assert RenderOne(st, rg).st == DrawAndRelease(u, rg);
  }

  /** Every vertex array drawn between two logs has been released by the second. */
  predicate NewDrawsReleased(a: seq<Event>, b: seq<Event>)
  {
    && Draws(a) <= Draws(b)
    && forall i :: |Draws(a)| <= i < |Draws(b)| ==> Draws(b)[i] in ReleasedIn(b)
  }

  lemma DrawsPrefix(a: seq<Event>, b: seq<Event>)
    requires a <= b
    ensures Draws(a) <= Draws(b)
  {
    assert b == a + b[|a|..];
    DrawsAppend(a, b[|a|..]);
  }

  lemma NewDrawsReleasedTransitive(a: seq<Event>, b: seq<Event>, c: seq<Event>)
    requires b <= c && NewDrawsReleased(a, b) && NewDrawsReleased(b, c)
    ensures NewDrawsReleased(a, c)
  {
    ReleasedInPrefix(b, c);
    assert forall i :: 0 <= i < |Draws(b)| ==> Draws(c)[i] == Draws(b)[i];
  }

  lemma NewDrawsReleasedQuiet(a: seq<Event>, b: seq<Event>)
    requires a <= b && Draws(b) == Draws(a)
    ensures NewDrawsReleased(a, b)
  {
  }

  /** Groups built for a drawable that is not static are each released right after
      they are drawn, so everything such a render draws is released by its end. */
  lemma {:induction false} RenderFreshReleases(st: CameraState, ws: seq<ShaderWrapper>)
    ensures NewDrawsReleased(st.gpu.events, RenderFresh(st, ws).st.gpu.events)
    decreases |ws|
  {
    if ws != [] {
      var b := BuildGroup(st, ws[0], true);
      QuietExtension(st.gpu.events, b.st.gpu.events);
      if b.res.Ok? {
        var rg := b.res.value;
        var r1 := RenderOne(b.st, rg);
        if r1.res.Ok? {
          assert Draws(r1.st.gpu.events)[|Draws(b.st.gpu.events)|] == rg.vao;
          assert NewDrawsReleased(b.st.gpu.events, r1.st.gpu.events);
          RenderFreshReleases(r1.st, ws[1..]);
          NewDrawsReleasedTransitive(st.gpu.events, r1.st.gpu.events, RenderFresh(r1.st, ws[1..]).st.gpu.events);
        } else {
          NewDrawsReleasedQuiet(st.gpu.events, r1.st.gpu.events);
        }
      }
    }
  }

  /** Every group in the static index is persistent. */
  predicate StaticGroupsPersistent(st: CameraState)
  {
    forall e, g :: e in st.staticIndex && g in e.1 ==> !g.singleUse
  }

  /** Rendering a drawable that has a static entry renders that entry's groups. */
  lemma RenderMobjectStatic(st: CameraState, m: Mobject)
    requires Lookup(st.staticIndex, m.id).Some?
    ensures RenderMobject(st, m) == RenderGroups(st, Lookup(st.staticIndex, m.id).value)
  {
  }

  lemma {:induction false} RenderStaticKeeps(st: CameraState, ms: seq<Mobject>)
    requires StaticGroupsPersistent(st)
    requires forall m :: m in ms ==> Lookup(st.staticIndex, m.id).Some?
    ensures ReleasedIn(RenderMobjects(st, ms).st.gpu.events) == ReleasedIn(st.gpu.events)
    decreases |ms|
  {
    if ms != [] {
      assert ms[0] in ms;
      var groups := Lookup(st.staticIndex, ms[0].id).value;
      assert (ms[0].id, groups) in st.staticIndex;
      RenderMobjectStatic(st, ms[0]);
      RenderGroupsKeep(st, groups);
      var r1 := RenderMobject(st, ms[0]);
      if r1.res.Ok? {
        assert forall m :: m in ms[1..] ==> m in ms;
        RenderStaticKeeps(r1.st, ms[1..]);
      }
    }
  }

  /** A successful render of a list is a successful render of its head followed by
      one of its tail. */
  lemma RenderMobjectsCons(st: CameraState, ms: seq<Mobject>)
    requires ms != [] && RenderMobjects(st, ms).res.Ok?
    ensures RenderMobject(st, ms[0]).res.Ok?
    ensures RenderMobjects(st, ms) == RenderMobjects(RenderMobject(st, ms[0]).st, ms[1..])
  {
  }

  /** What a capture renders for each drawable, given as `groupLists`: the stored
      entry of a static drawable; for any other drawable new single-use groups, one
      per wrapper, handed out between `lo` and `hi`, whose handles are all in
      `released`. */
  predicate RenderedFor(index: Dict<MobjectId, seq<RenderGroup>>, ms: seq<Mobject>,
                        groupLists: seq<seq<RenderGroup>>, lo: Handle, hi: Handle, released: set<Handle>)
  {
    && |groupLists| == |ms|
    && forall i :: 0 <= i < |ms| ==>
         && (Lookup(index, ms[i].id).Some? ==> groupLists[i] == Lookup(index, ms[i].id).value)
         && (Lookup(index, ms[i].id).None? ==>
               && GroupsBuilt(groupLists[i], ms[i].shaderWrappers, true, lo, hi)
               && (forall g :: g in groupLists[i] ==> HandleSet(g) <= released))
  }

  lemma GroupsBuiltWiden(groups: seq<RenderGroup>, ws: seq<ShaderWrapper>, singleUse: bool,
                         lo: Handle, hi: Handle, lo': Handle, hi': Handle)
    requires GroupsBuilt(groups, ws, singleUse, lo, hi) && lo' <= lo && hi <= hi'
    ensures GroupsBuilt(groups, ws, singleUse, lo', hi')
  {
  }

  lemma RenderedForCons(index: Dict<MobjectId, seq<RenderGroup>>, ms: seq<Mobject>,
                        groups: seq<RenderGroup>, groupLists: seq<seq<RenderGroup>>,
                        lo: Handle, mid: Handle, hi: Handle, released1: set<Handle>, released: set<Handle>)
    requires ms != [] && lo <= mid <= hi && released1 <= released
    requires Lookup(index, ms[0].id).Some? ==> groups == Lookup(index, ms[0].id).value
    requires Lookup(index, ms[0].id).None? ==>
               && GroupsBuilt(groups, ms[0].shaderWrappers, true, lo, mid)
               && (forall g :: g in groups ==> HandleSet(g) <= released1)
    requires RenderedFor(index, ms[1..], groupLists, mid, hi, released)
    ensures RenderedFor(index, ms, [groups] + groupLists, lo, hi, released)
  {
    var all := [groups] + groupLists;
    forall i | 0 <= i < |ms|
      ensures Lookup(index, ms[i].id).None? ==>
                && GroupsBuilt(all[i], ms[i].shaderWrappers, true, lo, hi)
                && (forall g :: g in all[i] ==> HandleSet(g) <= released)
    {
      if Lookup(index, ms[i].id).None? {
        if i == 0 {
          GroupsBuiltWiden(groups, ms[0].shaderWrappers, true, lo, mid, lo, hi);
        } else {
          assert all[i] == groupLists[i - 1] && ms[i] == ms[1..][i - 1];
          GroupsBuiltWiden(groupLists[i - 1], ms[i].shaderWrappers, true, mid, hi, lo, hi);
        }
      }
    }
    assert forall i :: 1 <= i < |ms| ==> all[i] == groupLists[i - 1] && ms[i] == ms[1..][i - 1];
  }

  lemma {:induction false} RenderMobjectsGroups(st: CameraState, ms: seq<Mobject>)
    requires RenderMobjects(st, ms).res.Ok?
    ensures var r := RenderMobjects(st, ms).st;
            RenderedFor(st.staticIndex, ms, RenderedGroups(st, ms), st.gpu.next, r.gpu.next, ReleasedIn(r.gpu.events))
    decreases |ms|
  {
    if ms != [] {
      RenderMobjectsCons(st, ms);
      var r1 := RenderMobject(st, ms[0]);
      var r := RenderMobjects(r1.st, ms[1..]);
      RenderMobjectsGroups(r1.st, ms[1..]);
      ReleasedInPrefix(r1.st.gpu.events, r.st.gpu.events);
      assert RenderedGroups(st, ms) == [MobjectGroups(st, ms[0])] + RenderedGroups(r1.st, ms[1..]);
      RenderedForCons(st.staticIndex, ms, MobjectGroups(st, ms[0]), RenderedGroups(r1.st, ms[1..]),
                      st.gpu.next, r1.st.gpu.next, r.st.gpu.next, ReleasedIn(r1.st.gpu.events), ReleasedIn(r.st.gpu.events));
    }
  }

  /** A capture of any mix of drawables draws each drawable's groups in turn: the
      stored entry of a static drawable, and otherwise one new single-use group per
      wrapper, released by the end of the capture. */
  lemma CaptureDraws(st: CameraState, perspectiveUniforms: Uniforms, ms: seq<Mobject>)
    requires Capture(st, perspectiveUniforms, ms).res.Ok?
    ensures var r := Capture(st, perspectiveUniforms, ms).st;
            var groupLists := RenderedGroups(st.(perspectiveUniforms := perspectiveUniforms), ms);
            && Draws(r.gpu.events) == Draws(st.gpu.events) + AllVaos(groupLists)
            && RenderedFor(st.staticIndex, ms, groupLists, st.gpu.next, r.gpu.next, ReleasedIn(r.gpu.events))
  {
    RenderMobjectsGroups(st.(perspectiveUniforms := perspectiveUniforms), ms);
  }

  /** A capture of static drawables renders each one's stored groups, in index
      order, and releases none of them, so they can be drawn again. */
  lemma CaptureStatic(st: CameraState, perspectiveUniforms: Uniforms, ms: seq<Mobject>)
    requires StaticGroupsPersistent(st)
    requires forall m :: m in ms ==> Lookup(st.staticIndex, m.id).Some?
    ensures var r := Capture(st, perspectiveUniforms, ms);
            var groupLists := RenderedGroups(st.(perspectiveUniforms := perspectiveUniforms), ms);
            && ReleasedIn(r.st.gpu.events) == ReleasedIn(st.gpu.events)
            && (r.res.Ok? ==> |groupLists| == |ms|)
            && (r.res.Ok? ==> forall i :: 0 <= i < |ms| && i < |groupLists| ==>
                  groupLists[i] == Lookup(st.staticIndex, ms[i].id).value)
  {
    var st' := st.(perspectiveUniforms := perspectiveUniforms);
    RenderStaticKeeps(st', ms);
    if Capture(st, perspectiveUniforms, ms).res.Ok? {
      CaptureDraws(st, perspectiveUniforms, ms);
      assert forall i :: 0 <= i < |ms| ==> ms[i] in ms;
    }
  }

  lemma {:induction false} RenderFreshMobjects(st: CameraState, ms: seq<Mobject>)
    requires forall i :: 0 <= i < |ms| ==> Lookup(st.staticIndex, ms[i].id).None?
    ensures NewDrawsReleased(st.gpu.events, RenderMobjects(st, ms).st.gpu.events)
    decreases |ms|
  {
    if ms != [] {
      var r1 := RenderMobject(st, ms[0]);
      RenderFreshReleases(st, ms[0].shaderWrappers);
      if r1.res.Ok? {
        assert forall i :: 0 <= i < |ms| - 1 ==> ms[1..][i] == ms[i + 1];
        RenderFreshMobjects(r1.st, ms[1..]);
        NewDrawsReleasedTransitive(st.gpu.events, r1.st.gpu.events, RenderMobjects(r1.st, ms[1..]).st.gpu.events);
      }
    }
  }

  /** A capture of drawables that are not static releases everything it draws. */
  lemma CaptureFresh(st: CameraState, perspectiveUniforms: Uniforms, ms: seq<Mobject>)
    requires forall i :: 0 <= i < |ms| ==> Lookup(st.staticIndex, ms[i].id).None?
    ensures NewDrawsReleased(st.gpu.events, Capture(st, perspectiveUniforms, ms).st.gpu.events)
  {
    RenderFreshMobjects(st.(perspectiveUniforms := perspectiveUniforms), ms);
  }

  // ---- Static render index ----

  /** `set_mobjects_as_static` leaves the entry of an id none of the drawables has
      as it was. */
  lemma {:induction false} SetStaticOthers(st: CameraState, ms: seq<Mobject>, k: MobjectId)
    requires forall m :: m in ms ==> m.id != k
    ensures Lookup(SetStatic(st, ms).st.staticIndex, k) == Lookup(st.staticIndex, k)
    decreases |ms|
  {
    if ms != [] {
      var b := BuildGroups(st, ms[0].shaderWrappers, false);
      if b.res.Ok? {
        var st1 := b.st.(staticIndex := Put(b.st.staticIndex, ms[0].id, b.res.value));
        assert ms[0] in ms;
        LookupPut(b.st.staticIndex, ms[0].id, b.res.value, k);
        assert forall m :: m in ms[1..] ==> m in ms;
        SetStaticOthers(st1, ms[1..], k);
      }
    }
  }

  /** After `set_mobjects_as_static`, each drawable not followed by another with its
      id has one persistent group per wrapper, all built during the call: none of
      them is a group the index held before. */
  lemma {:induction false} SetStaticEntries(st: CameraState, ms: seq<Mobject>, i: nat)
    requires SetStatic(st, ms).res.Ok?
    requires i < |ms| && forall j :: i < j < |ms| ==> ms[j].id != ms[i].id
    ensures var e := Lookup(SetStatic(st, ms).st.staticIndex, ms[i].id);
            e.Some? && GroupsBuilt(e.value, ms[i].shaderWrappers, false, st.gpu.next, SetStatic(st, ms).st.gpu.next)
    decreases |ms|
  {
    if i == 0 {
      SetStaticEntriesHead(st, ms);
    } else {
      var b := BuildGroups(st, ms[0].shaderWrappers, false);
      var st1 := b.st.(staticIndex := Put(b.st.staticIndex, ms[0].id, b.res.value));
      assert ms[1..][i - 1] == ms[i];
      assert forall j :: i - 1 < j < |ms| - 1 ==> ms[1..][j] == ms[j + 1];
      SetStaticEntries(st1, ms[1..], i - 1);
      var e := Lookup(SetStatic(st, ms).st.staticIndex, ms[i].id);
      GroupsBuiltWiden(e.value, ms[i].shaderWrappers, false, st1.gpu.next, SetStatic(st, ms).st.gpu.next,
                       st.gpu.next, SetStatic(st, ms).st.gpu.next);
    }
  }

  /** Re-registering a drawable that was already static replaces its entry with
      groups sharing no handle with the old ones; as `set_mobjects_as_static`
      releases nothing, the old groups are left allocated. */
  lemma SetStaticReplaces(st: CameraState, ms: seq<Mobject>, i: nat, previous: seq<RenderGroup>)
    requires Consistent(st) && SetStatic(st, ms).res.Ok?
    requires i < |ms| && forall j :: i < j < |ms| ==> ms[j].id != ms[i].id
    requires Lookup(st.staticIndex, ms[i].id) == Some(previous)
    ensures var e := Lookup(SetStatic(st, ms).st.staticIndex, ms[i].id);
            && e.Some?
            && (forall g, g' :: g in previous && g' in e.value ==> HandleSet(g) !! HandleSet(g'))
            && (forall g :: g in previous ==> HandleSet(g) !! ReleasedIn(SetStatic(st, ms).st.gpu.events) - ReleasedIn(st.gpu.events))
  {
    var r := SetStatic(st, ms).st;
    SetStaticEntries(st, ms, i);
    assert (ms[i].id, previous) in st.staticIndex;
    assert forall g :: g in previous ==> GroupWithin(g, 0, st.gpu.next);
    GroupsDisjoint(previous, Lookup(r.staticIndex, ms[i].id).value, ms[i].shaderWrappers, st.gpu.next, r.gpu.next);
  }

  /** Groups held below `lo` share no handle with groups built from `lo` on. */
  lemma GroupsDisjoint(previous: seq<RenderGroup>, groups: seq<RenderGroup>, ws: seq<ShaderWrapper>, lo: Handle, hi: Handle)
    requires forall g :: g in previous ==> GroupWithin(g, 0, lo)
    requires GroupsBuilt(groups, ws, false, lo, hi)
    ensures forall g, g' :: g in previous && g' in groups ==> HandleSet(g) !! HandleSet(g')
  {
    forall g, g' | g in previous && g' in groups
      ensures HandleSet(g) !! HandleSet(g')
    {
      var j :| 0 <= j < |groups| && groups[j] == g';
      assert GroupWithin(groups[j], lo, hi);
    }
  }

  /** The first drawable's entry, when no later drawable has its id. */
  lemma SetStaticEntriesHead(st: CameraState, ms: seq<Mobject>)
    requires ms != [] && SetStatic(st, ms).res.Ok?
    requires forall j :: 0 < j < |ms| ==> ms[j].id != ms[0].id
    ensures var e := Lookup(SetStatic(st, ms).st.staticIndex, ms[0].id);
            e.Some? && GroupsBuilt(e.value, ms[0].shaderWrappers, false, st.gpu.next, SetStatic(st, ms).st.gpu.next)
  {
    var b := BuildGroups(st, ms[0].shaderWrappers, false);
    var st1 := b.st.(staticIndex := Put(b.st.staticIndex, ms[0].id, b.res.value));
    forall m | m in ms[1..] ensures m.id != ms[0].id {
      var j :| 0 <= j < |ms[1..]| && ms[1..][j] == m;
      assert ms[j + 1] == m;
    }
    SetStaticOthers(st1, ms[1..], ms[0].id);
    LookupPut(b.st.staticIndex, ms[0].id, b.res.value, ms[0].id);
    GroupsBuiltWiden(b.res.value, ms[0].shaderWrappers, false, st.gpu.next, b.st.gpu.next,
                     st.gpu.next, SetStatic(st1, ms[1..]).st.gpu.next);
  }

  /** `set_mobjects_as_static` stores only persistent groups. */
  lemma {:induction false} SetStaticPersistent(st: CameraState, ms: seq<Mobject>)
    requires StaticGroupsPersistent(st)
    ensures StaticGroupsPersistent(SetStatic(st, ms).st)
    decreases |ms|
  {
    if ms != [] {
      var b := BuildGroups(st, ms[0].shaderWrappers, false);
      if b.res.Ok? {
        var st1 := b.st.(staticIndex := Put(b.st.staticIndex, ms[0].id, b.res.value));
        PutEntries(b.st.staticIndex, ms[0].id, b.res.value);
        assert StaticGroupsPersistent(st1);
        SetStaticPersistent(st1, ms[1..]);
      }
    }
  }

  lemma {:induction false} GroupsHandlesCover(groups: seq<RenderGroup>, g: RenderGroup)
    requires g in groups
    ensures HandleSet(g) <= GroupsHandles(groups)
    decreases |groups|
  {
    if groups[0] != g {
      GroupsHandlesCover(groups[1..], g);
    }
  }

  lemma {:induction false} EntriesHandlesCover(entries: Dict<MobjectId, seq<RenderGroup>>, e: (MobjectId, seq<RenderGroup>), g: RenderGroup)
    requires e in entries && g in e.1
    ensures HandleSet(g) <= EntriesHandles(entries)
    decreases |entries|
  {
    if entries[0] == e {
      GroupsHandlesCover(e.1, g);
    } else {
      EntriesHandlesCover(entries[1..], e, g);
    }
  }

  /** `release_static_mobjects` releases every handle of every stored group and
      leaves the index empty. */
  lemma ReleaseStaticReleasesAll(st: CameraState)
    ensures ReleaseStatic(st).staticIndex == []
    ensures forall e, g :: e in st.staticIndex && g in e.1 ==>
              HandleSet(g) <= ReleasedIn(ReleaseStatic(st).gpu.events)
  {
    forall e, g | e in st.staticIndex && g in e.1
      ensures HandleSet(g) <= ReleasedIn(ReleaseStatic(st).gpu.events)
    {
      EntriesHandlesCover(st.staticIndex, e, g);
    }
  }
}
