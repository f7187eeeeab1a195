/**
  The directional shadow pass of Shadows.cs: reserving shadow slots for up to
  four directional lights, rendering every (light, cascade) tile of the
  shadow atlas, and releasing the atlas afterwards.

  The engine is reached through two channels, both modelled as traces of
  abstract commands: the pass's own command buffer (commands recorded but
  not yet run) and the render context (commands run, in order). Engine
  queries (caster bounds, cascade matrices) are total functions carried by
  the culling results.
 */
module DirectionalShadows {
  import opened Linear
  import opened ShadowAtlas
  import opened Sequences

  /** The light's shadow mode (the engine's LightShadows). */
  datatype LightShadows = None | Hard | Soft

  /** The parts of a visible directional light the reservation reads. */
  datatype Light = Light(shadows: LightShadows, shadowStrength: real)

  /** A Vector2, as returned to the lighting code. */
  datatype Vector2 = Vector2(x: real, y: real)

  /** A culling sphere: centre (x, y, z) and radius w (a Vector4). */
  datatype Sphere = Sphere(x: real, y: real, z: real, w: real)

  /** The three cascade split ratios (a Vector3). */
  datatype Ratios = Ratios(x: real, y: real, z: real)

  /** Arguments of the engine's directional cascade computation. */
  datatype CascadeQuery = CascadeQuery(
    visibleLightIndex: int, cascadeIndex: int, cascadeCount: int,
    ratios: Ratios, tileSize: int, nearPlaneOffset: real)

  /** What the engine computes for one cascade: view and projection matrices and the culling sphere. */
  datatype CascadeData = CascadeData(view: Matrix4x4, projection: Matrix4x4, cullingSphere: Sphere)

  /**
    The visibility query's answers, as far as the shadow pass asks them:
    whether a visible light has shadow-caster bounds, and the cascade data
    for a query. Both are the engine's; the model treats them as given.
   */
  datatype CullingResults = CullingResults(
    hasShadowCasterBounds: int -> bool,
    computeCascade: CascadeQuery -> CascadeData)

  /** The directional part of the shadow settings. */
  datatype DirectionalSettings = DirectionalSettings(atlasSize: int, cascadeCount: int, ratios: Ratios)

  /** Shadow settings: the directional group and the distances used for fading. */
  datatype ShadowSettings = ShadowSettings(maxDistance: real, distanceFade: real, directional: DirectionalSettings)

  /** The ranges the settings asset allows: one to four cascades and a non-empty atlas. */
  predicate ValidSettings(s: ShadowSettings) {
    1 <= s.directional.cascadeCount <= MaxCascades && s.directional.atlasSize >= 1
  }

  /** The temporary shadow-atlas target: not held, or held at the given size. */
  datatype Target = NoTarget | Temporary(width: int, height: int)

  /** Commands the shadow pass records into its buffer or issues to the render context. */
  datatype Command =
    | GetAtlas(width: int, height: int)
    | ClearAtlas
    | SetViewport(viewport: Rect)
    | SetViewProjection(view: Matrix4x4, projection: Matrix4x4)
    | DrawShadows(visibleLightIndex: int, cascade: int)
    | SetShadowGlobals(cascadeCount: int, cullingSpheres: seq<Sphere>, matrices: seq<Matrix4x4>)
    | ReleaseAtlas

  /** The atlas target held once the given commands have run. */
  function HeldAfter(cmds: seq<Command>): Target {
    if cmds == [] then NoTarget
    else match cmds[|cmds| - 1]
      case GetAtlas(w, h) => Temporary(w, h)
      case ReleaseAtlas => NoTarget
      case _ => HeldAfter(cmds[..|cmds| - 1])
  }

  predicate TouchesAtlas(c: Command) {
    c.GetAtlas? || c.ReleaseAtlas?
  }

  /** No command in cmds gets or releases the atlas. */
  predicate LeavesAtlas(cmds: seq<Command>) {
    forall k :: 0 <= k < |cmds| ==> !TouchesAtlas(cmds[k])
  }

  lemma LeavesAtlasAppend(a: seq<Command>, b: seq<Command>)
    requires LeavesAtlas(a) && LeavesAtlas(b)
    ensures LeavesAtlas(a + b)
  {
    forall k | 0 <= k < |a + b| ensures !TouchesAtlas((a + b)[k]) {
      if k < |a| {
        assert (a + b)[k] == a[k];
      } else {
        assert (a + b)[k] == b[k - |a|];
      }
    }
  }

  /** Running commands that neither get nor release the atlas leaves what is held as it was. */
  lemma {:induction false} HeldAfterIgnores(a: seq<Command>, b: seq<Command>)
    requires LeavesAtlas(b)
    ensures HeldAfter(a + b) == HeldAfter(a)
  {
    if b == [] {
      assert a + b == a;
    } else {
      var front := b[..|b| - 1];
      assert (a + b)[..|a + b| - 1] == a + front;
      var last := (a + b)[|a + b| - 1];
      assert last == b[|b| - 1] && !TouchesAtlas(last);
      assert HeldAfter(a + b) == HeldAfter(a + front) by {
        match last
        case GetAtlas(_, _) =>
        case ReleaseAtlas =>
        case _ =>
      }
      HeldAfterIgnores(a, front);
    }
  }

  /** Once an atlas pass has run, the atlas it requested is the one held. */
  lemma AtlasPassHoldsAtlas(executed0: seq<Command>, cr: CullingResults, d: DirectionalSettings, lights: seq<int>,
                            slots: int, split: int, spheres: seq<Sphere>, matrices: seq<Matrix4x4>)
    requires 0 <= slots <= |lights| && d.cascadeCount >= 0 && d.atlasSize >= 0 && split >= 1
    ensures var a := d.atlasSize;
      HeldAfter(executed0 + [GetAtlas(a, a), ClearAtlas] + AtlasCommands(cr, d, lights, slots, split, TileSize(a, split))
                + [SetShadowGlobals(d.cascadeCount, spheres, matrices)]) == Temporary(a, a)
  {
    hide CascadeAtlasMatrix;
    var a := d.atlasSize;
    var start := executed0 + [GetAtlas(a, a), ClearAtlas];
    var tilePass := AtlasCommands(cr, d, lights, slots, split, TileSize(a, split));
    var globals := SetShadowGlobals(d.cascadeCount, spheres, matrices);
    AtlasCommandsKeepAtlas(cr, d, lights, slots, split, TileSize(a, split));
    LeavesAtlasAppend(tilePass, [globals]);
    HeldAfterIgnores(start, tilePass + [globals]);
    assert start + tilePass + [globals] == start + (tilePass + [globals]);
  }

  /** Whether ReserveDirectionalShadows admits a light when count slots are taken. */
  predicate Admits(count: int, light: Light, hasCasterBounds: bool) {
    count < MaxShadowedDirectionalLightCount && light.shadows != None
    && light.shadowStrength > 0.0 && hasCasterBounds
  }

  /** The cascade data the engine returns for one cascade of one light. */
  function CascadeFor(cr: CullingResults, d: DirectionalSettings, visibleLightIndex: int, cascade: int, tileSize: int): CascadeData {
    cr.computeCascade(CascadeQuery(visibleLightIndex, cascade, d.cascadeCount, d.ratios, tileSize, 0.0))
  }

  /** The culling sphere as stored for the shaders: radius replaced by its square. */
  function SquaredRadius(s: Sphere): Sphere {
    s.(w := s.w * s.w)
  }

  /**
    The atlas matrix stored at tile t: light t / cascadeCount's cascade
    t % cascadeCount, its projection times view remapped into tile t
    (tiles past the given lights are not stored by any pass).
   */
  function TileMatrix(cr: CullingResults, d: DirectionalSettings, lights: seq<int>, t: int,
                      split: int, tileSize: int, reversedZ: bool): Matrix4x4
    requires d.cascadeCount >= 1 && 0 <= t && split >= 1
  {
    var light := t / d.cascadeCount;
    var visibleLightIndex := if light < |lights| then lights[light] else 0;
    CascadeAtlasMatrix(CascadeFor(cr, d, visibleLightIndex, t % d.cascadeCount, tileSize), t, split, reversedZ)
  }

  /** The atlas matrix of one cascade stored at tile tileIndex: projection times view, remapped into the tile. */
  function CascadeAtlasMatrix(c: CascadeData, tileIndex: int, split: int, reversedZ: bool): Matrix4x4
    requires tileIndex >= 0 && split >= 1
  {
    ConvertToAtlasMatrix(Mul(c.projection, c.view), TileOffset(tileIndex, split), split, reversedZ)
  }

  /** The matrix array after the first n cascades of the light in slot lightIndex are stored into m. */
  function LightMatrices(cr: CullingResults, d: DirectionalSettings, visibleLightIndex: int, lightIndex: int, n: int,
                         split: int, tileSize: int, reversedZ: bool, m: seq<Matrix4x4>): (r: seq<Matrix4x4>)
    requires 0 <= lightIndex < MaxShadowedDirectionalLightCount && 0 <= n <= d.cascadeCount <= MaxCascades
    requires split >= 1 && |m| == MaxTiles
    ensures |r| == MaxTiles
    decreases n
  {
    if n == 0 then m
    else
      var t := lightIndex * d.cascadeCount + n - 1;
      TileIndexBelowMaxTiles(lightIndex, n - 1, d.cascadeCount);
      LightMatrices(cr, d, visibleLightIndex, lightIndex, n - 1, split, tileSize, reversedZ, m)
        [t := CascadeAtlasMatrix(CascadeFor(cr, d, visibleLightIndex, n - 1, tileSize), t, split, reversedZ)]
  }

  /** The matrix array after every cascade of the lights in the first slots slots is stored into m. */
  function AtlasMatrices(cr: CullingResults, d: DirectionalSettings, lights: seq<int>, slots: int,
                         split: int, tileSize: int, reversedZ: bool, m: seq<Matrix4x4>): (r: seq<Matrix4x4>)
    requires 0 <= slots <= |lights| && slots <= MaxShadowedDirectionalLightCount && 0 <= d.cascadeCount <= MaxCascades
    requires split >= 1 && |m| == MaxTiles
    ensures |r| == MaxTiles
    decreases slots
  {
    if slots == 0 then m
    else
      LightMatrices(cr, d, lights[slots - 1], slots - 1, d.cascadeCount, split, tileSize, reversedZ,
        AtlasMatrices(cr, d, lights, slots - 1, split, tileSize, reversedZ, m))
  }

  /** One more cascade stores its atlas matrix at its tile. */
  lemma LightMatricesStep(cr: CullingResults, d: DirectionalSettings, visibleLightIndex: int, lightIndex: int, n: int,
                          split: int, tileSize: int, reversedZ: bool, m: seq<Matrix4x4>)
    requires 0 <= lightIndex < MaxShadowedDirectionalLightCount && 0 <= n < d.cascadeCount <= MaxCascades
    requires split >= 1 && |m| == MaxTiles
    ensures var t := lightIndex * d.cascadeCount + n;
      0 <= t < MaxTiles
      && LightMatrices(cr, d, visibleLightIndex, lightIndex, n + 1, split, tileSize, reversedZ, m)
         == LightMatrices(cr, d, visibleLightIndex, lightIndex, n, split, tileSize, reversedZ, m)
              [t := CascadeAtlasMatrix(CascadeFor(cr, d, visibleLightIndex, n, tileSize), t, split, reversedZ)]
  {
    hide CascadeAtlasMatrix;
    TileIndexBelowMaxTiles(lightIndex, n, d.cascadeCount);
  }

  /** The sphere array after the first n cascades' squared culling spheres are stored into s. */
  function LightSpheres(cr: CullingResults, d: DirectionalSettings, visibleLightIndex: int, n: int, tileSize: int,
                        s: seq<Sphere>): (r: seq<Sphere>)
    requires 0 <= n <= MaxCascades && |s| == MaxCascades
    ensures |r| == MaxCascades
    decreases n
  {
    if n == 0 then s
    else LightSpheres(cr, d, visibleLightIndex, n - 1, tileSize, s)
      [n - 1 := SquaredRadius(CascadeFor(cr, d, visibleLightIndex, n - 1, tileSize).cullingSphere)]
  }

  /**
    The light in slot lightIndex stores exactly the tiles lightIndex *
    cascadeCount up to lightIndex * cascadeCount + n, each with the atlas
    matrix TileMatrix names for it.
   */
  lemma {:induction false} LightMatricesAt(cr: CullingResults, d: DirectionalSettings, lights: seq<int>, lightIndex: int, n: int,
                                           split: int, tileSize: int, reversedZ: bool, m: seq<Matrix4x4>, t: int)
    requires 0 <= lightIndex < |lights| && lightIndex < MaxShadowedDirectionalLightCount
    requires 0 <= n <= d.cascadeCount <= MaxCascades && 1 <= d.cascadeCount
    requires split >= 1 && |m| == MaxTiles && 0 <= t < MaxTiles
    ensures var first := lightIndex * d.cascadeCount;
      LightMatrices(cr, d, lights[lightIndex], lightIndex, n, split, tileSize, reversedZ, m)[t]
        == if first <= t < first + n then TileMatrix(cr, d, lights, t, split, tileSize, reversedZ) else m[t]
  {
    hide CascadeAtlasMatrix;
    if n > 0 {
      var first := lightIndex * d.cascadeCount;
      var prior := LightMatrices(cr, d, lights[lightIndex], lightIndex, n - 1, split, tileSize, reversedZ, m);
      LightMatricesAt(cr, d, lights, lightIndex, n - 1, split, tileSize, reversedZ, m, t);
      assert prior[t] == if first <= t < first + n - 1 then TileMatrix(cr, d, lights, t, split, tileSize, reversedZ) else m[t];
      var u := first + n - 1;
      TileIndexBelowMaxTiles(lightIndex, n - 1, d.cascadeCount);
      var c := CascadeFor(cr, d, lights[lightIndex], n - 1, tileSize);
      assert LightMatrices(cr, d, lights[lightIndex], lightIndex, n, split, tileSize, reversedZ, m)
        == prior[u := CascadeAtlasMatrix(c, u, split, reversedZ)];
      if t == u {
        TileIndexDecomposes(lightIndex, n - 1, d.cascadeCount);
        assert TileMatrix(cr, d, lights, t, split, tileSize, reversedZ) == CascadeAtlasMatrix(c, u, split, reversedZ);
      }
    }
  }

  /**
    After a pass over the first slots slots, tile t holds the atlas matrix
    of light t / cascadeCount's cascade t % cascadeCount when t is below
    slots * cascadeCount, and its earlier matrix otherwise.
   */
  lemma {:induction false} AtlasMatricesAt(cr: CullingResults, d: DirectionalSettings, lights: seq<int>, slots: int,
                                           split: int, tileSize: int, reversedZ: bool, m: seq<Matrix4x4>, t: int)
    requires 0 <= slots <= |lights| && slots <= MaxShadowedDirectionalLightCount && 1 <= d.cascadeCount <= MaxCascades
    requires split >= 1 && |m| == MaxTiles && 0 <= t < MaxTiles
    ensures AtlasMatrices(cr, d, lights, slots, split, tileSize, reversedZ, m)[t]
      == if t < slots * d.cascadeCount then TileMatrix(cr, d, lights, t, split, tileSize, reversedZ) else m[t]
  {
    hide CascadeAtlasMatrix;
    if slots > 0 {
      var prior := AtlasMatrices(cr, d, lights, slots - 1, split, tileSize, reversedZ, m);
      AtlasMatricesAt(cr, d, lights, slots - 1, split, tileSize, reversedZ, m, t);
      LightMatricesAt(cr, d, lights, slots - 1, d.cascadeCount, split, tileSize, reversedZ, prior, t);
      assert (slots - 1) * d.cascadeCount + d.cascadeCount == slots * d.cascadeCount;
    }
  }

  /** The first n spheres become the squared culling spheres of the light's first n cascades; the rest stay. */
  lemma {:induction false} LightSpheresAt(cr: CullingResults, d: DirectionalSettings, visibleLightIndex: int, n: int,
                                          tileSize: int, s: seq<Sphere>, c: int)
    requires 0 <= n <= MaxCascades && |s| == MaxCascades && 0 <= c < MaxCascades
    ensures LightSpheres(cr, d, visibleLightIndex, n, tileSize, s)[c]
      == if c < n then SquaredRadius(CascadeFor(cr, d, visibleLightIndex, c, tileSize).cullingSphere) else s[c]
  {
    if n > 0 {
      LightSpheresAt(cr, d, visibleLightIndex, n - 1, tileSize, s, c);
    }
  }

  /** Commands run for the first n cascades of the light in slot lightIndex. */
  function CascadeCommands(cr: CullingResults, d: DirectionalSettings, visibleLightIndex: int, lightIndex: int,
                           n: int, split: int, tileSize: int): seq<Command>
    requires 0 <= lightIndex && 0 <= n <= d.cascadeCount && split >= 1
    decreases n
  {
    if n == 0 then []
    else
      var c := CascadeFor(cr, d, visibleLightIndex, n - 1, tileSize);
      CascadeCommands(cr, d, visibleLightIndex, lightIndex, n - 1, split, tileSize)
      + [SetViewport(TileRect(lightIndex * d.cascadeCount + n - 1, split, tileSize)),
         SetViewProjection(c.view, c.projection),
         DrawShadows(visibleLightIndex, n - 1)]
  }

  /** Commands run for all cascades of the lights in the first slots slots. */
  function AtlasCommands(cr: CullingResults, d: DirectionalSettings, lights: seq<int>, slots: int,
                         split: int, tileSize: int): seq<Command>
    requires 0 <= slots <= |lights| && d.cascadeCount >= 0 && split >= 1
    decreases slots
  {
    if slots == 0 then []
    else
      AtlasCommands(cr, d, lights, slots - 1, split, tileSize)
      + CascadeCommands(cr, d, lights[slots - 1], slots - 1, d.cascadeCount, split, tileSize)
  }

  /** One more cascade appends its viewport, view and projection, and draw to a light's commands. */
  lemma CascadeCommandsStep(cr: CullingResults, d: DirectionalSettings, visibleLightIndex: int, lightIndex: int,
                            n: int, split: int, tileSize: int)
    requires 0 <= lightIndex && 0 <= n < d.cascadeCount && split >= 1
    ensures var c := CascadeFor(cr, d, visibleLightIndex, n, tileSize);
      CascadeCommands(cr, d, visibleLightIndex, lightIndex, n + 1, split, tileSize)
        == CascadeCommands(cr, d, visibleLightIndex, lightIndex, n, split, tileSize)
           + [SetViewport(TileRect(lightIndex * d.cascadeCount + n, split, tileSize)),
              SetViewProjection(c.view, c.projection), DrawShadows(visibleLightIndex, n)]
  {
  }

  /** No command of one light's pass gets or releases the atlas. */
  lemma {:induction false} CascadeCommandsKeepAtlas(cr: CullingResults, d: DirectionalSettings, visibleLightIndex: int,
                                                    lightIndex: int, n: int, split: int, tileSize: int)
    requires 0 <= lightIndex && 0 <= n <= d.cascadeCount && split >= 1
    ensures LeavesAtlas(CascadeCommands(cr, d, visibleLightIndex, lightIndex, n, split, tileSize))
  {
    if n > 0 {
      var prior := CascadeCommands(cr, d, visibleLightIndex, lightIndex, n - 1, split, tileSize);
      var c := CascadeFor(cr, d, visibleLightIndex, n - 1, tileSize);
      var step := [SetViewport(TileRect(lightIndex * d.cascadeCount + n - 1, split, tileSize)),
                   SetViewProjection(c.view, c.projection), DrawShadows(visibleLightIndex, n - 1)];
      CascadeCommandsKeepAtlas(cr, d, visibleLightIndex, lightIndex, n - 1, split, tileSize);
      assert CascadeCommands(cr, d, visibleLightIndex, lightIndex, n, split, tileSize) == prior + step;
      forall k | 0 <= k < |prior + step| ensures !TouchesAtlas((prior + step)[k]) {
        if k < |prior| {
          assert (prior + step)[k] == prior[k];
        } else {
          assert (prior + step)[k] == step[k - |prior|];
        }
      }
    }
  }

  /** No command of the tile loop gets or releases the atlas. */
  lemma {:induction false} AtlasCommandsKeepAtlas(cr: CullingResults, d: DirectionalSettings, lights: seq<int>, slots: int,
                                                  split: int, tileSize: int)
    requires 0 <= slots <= |lights| && d.cascadeCount >= 0 && split >= 1
    ensures LeavesAtlas(AtlasCommands(cr, d, lights, slots, split, tileSize))
  {
    if slots > 0 {
      var prior := AtlasCommands(cr, d, lights, slots - 1, split, tileSize);
      var step := CascadeCommands(cr, d, lights[slots - 1], slots - 1, d.cascadeCount, split, tileSize);
      AtlasCommandsKeepAtlas(cr, d, lights, slots - 1, split, tileSize);
      CascadeCommandsKeepAtlas(cr, d, lights[slots - 1], slots - 1, d.cascadeCount, split, tileSize);
      forall k | 0 <= k < |prior + step| ensures !TouchesAtlas((prior + step)[k]) {
        if k < |prior| {
          assert (prior + step)[k] == prior[k];
        } else {
          assert (prior + step)[k] == step[k - |prior|];
        }
      }
    }
  }

  /** The command at position 3 t of a light pass: the viewport of tile t. */
  function ViewportAt(cmds: seq<Command>, t: int): Command
    requires 0 <= 3 * t < |cmds|
  {
    cmds[3 * t]
  }

  /**
    Layout of one light's commands: cascade i contributes, in order, the
    viewport of tile lightIndex * cascadeCount + i, its view and projection,
    and the shadow draw.
   */
  lemma {:induction false} CascadeCommandsAt(cr: CullingResults, d: DirectionalSettings, visibleLightIndex: int,
                                             lightIndex: int, n: int, split: int, tileSize: int, i: int)
    requires 0 <= lightIndex && 0 <= i < n <= d.cascadeCount && split >= 1
    ensures var cmds := CascadeCommands(cr, d, visibleLightIndex, lightIndex, n, split, tileSize);
      var c := CascadeFor(cr, d, visibleLightIndex, i, tileSize);
      && |cmds| == 3 * n
      && cmds[3 * i] == SetViewport(TileRect(lightIndex * d.cascadeCount + i, split, tileSize))
      && cmds[3 * i + 1] == SetViewProjection(c.view, c.projection)
      && cmds[3 * i + 2] == DrawShadows(visibleLightIndex, i)
  {
    if i < n - 1 {
      CascadeCommandsAt(cr, d, visibleLightIndex, lightIndex, n - 1, split, tileSize, i);
    } else {
      CascadeCommandsLength(cr, d, visibleLightIndex, lightIndex, n - 1, split, tileSize);
    }
  }

  lemma {:induction false} CascadeCommandsLength(cr: CullingResults, d: DirectionalSettings, visibleLightIndex: int,
                                                 lightIndex: int, n: int, split: int, tileSize: int)
    requires 0 <= lightIndex && 0 <= n <= d.cascadeCount && split >= 1
    ensures |CascadeCommands(cr, d, visibleLightIndex, lightIndex, n, split, tileSize)| == 3 * n
  {
    if n > 0 {
      CascadeCommandsLength(cr, d, visibleLightIndex, lightIndex, n - 1, split, tileSize);
    }
  }

  lemma {:induction false} AtlasCommandsLength(cr: CullingResults, d: DirectionalSettings, lights: seq<int>, slots: int,
                                               split: int, tileSize: int)
    requires 0 <= slots <= |lights| && d.cascadeCount >= 0 && split >= 1
    ensures |AtlasCommands(cr, d, lights, slots, split, tileSize)| == 3 * (slots * d.cascadeCount)
  {
    if slots > 0 {
      AtlasCommandsLength(cr, d, lights, slots - 1, split, tileSize);
      CascadeCommandsLength(cr, d, lights[slots - 1], slots - 1, d.cascadeCount, split, tileSize);
      assert (slots - 1) * d.cascadeCount + d.cascadeCount == slots * d.cascadeCount;
    }
  }

  /**
    Layout of a whole pass: tile t (of light t / cascadeCount, cascade
    t % cascadeCount) owns commands 3 t, 3 t + 1 and 3 t + 2: its viewport,
    its matrices and its shadow draw.
   */
  lemma {:induction false} AtlasCommandsAt(cr: CullingResults, d: DirectionalSettings, lights: seq<int>, slots: int,
                                           split: int, tileSize: int, t: int)
    requires 0 <= slots <= |lights| && d.cascadeCount >= 1 && split >= 1
    requires 0 <= t < slots * d.cascadeCount
    ensures var cmds := AtlasCommands(cr, d, lights, slots, split, tileSize);
      var light, cascade := t / d.cascadeCount, t % d.cascadeCount;
      && |cmds| == 3 * (slots * d.cascadeCount)
      && light < slots
      && var c := CascadeFor(cr, d, lights[light], cascade, tileSize);
      && cmds[3 * t] == SetViewport(TileRect(t, split, tileSize))
      && cmds[3 * t + 1] == SetViewProjection(c.view, c.projection)
      && cmds[3 * t + 2] == DrawShadows(lights[light], cascade)
  {
    hide TileRect;
    var cc := d.cascadeCount;
    AtlasCommandsLength(cr, d, lights, slots, split, tileSize);
    var before := (slots - 1) * cc;
    assert slots * cc == before + cc;
    if t < before {
      AtlasCommandsAt(cr, d, lights, slots - 1, split, tileSize, t);
    } else {
      var i := t - before;
      AtlasCommandsLength(cr, d, lights, slots - 1, split, tileSize);
      CascadeCommandsAt(cr, d, lights[slots - 1], slots - 1, cc, split, tileSize, i);
      TileIndexDecomposes(slots - 1, i, cc);
      assert 3 * t == 3 * before + 3 * i;
      assert 3 * t + 1 == 3 * before + (3 * i + 1);
    }
  }

  /** Every viewport a pass sets is the viewport of one of its tiles. */
  lemma ViewportsAreTiles(cr: CullingResults, d: DirectionalSettings, lights: seq<int>, slots: int,
                          split: int, tileSize: int, k: int)
    requires 0 <= slots <= |lights| && d.cascadeCount >= 1 && split >= 1
    requires var cmds := AtlasCommands(cr, d, lights, slots, split, tileSize); 0 <= k < |cmds| && cmds[k].SetViewport?
    ensures k % 3 == 0 && 0 <= k / 3 < slots * d.cascadeCount
    ensures AtlasCommands(cr, d, lights, slots, split, tileSize)[k].viewport == TileRect(k / 3, split, tileSize)
  {
    AtlasCommandsLength(cr, d, lights, slots, split, tileSize);
    var t := k / 3;
    AtlasCommandsAt(cr, d, lights, slots, split, tileSize, t);
  }

  /**
    The pass over the reserved lights only (count lights of cascadeCount
    cascades each) sets viewports that all lie inside the atlas and that
    pairwise share no pixel.
   */
  lemma ReservedTilesPackAtlas(cr: CullingResults, s: ShadowSettings, lights: seq<int>, count: int)
    requires ValidSettings(s) && 0 <= count <= MaxShadowedDirectionalLightCount && count <= |lights|
    ensures var d := s.directional;
      var split := Split(count * d.cascadeCount);
      var tileSize := TileSize(d.atlasSize, split);
      var cmds := AtlasCommands(cr, d, lights, count, split, tileSize);
      && (forall k :: 0 <= k < |cmds| && cmds[k].SetViewport? ==> WithinAtlas(cmds[k].viewport, d.atlasSize))
      && (forall k1, k2 :: 0 <= k1 < k2 < |cmds| && cmds[k1].SetViewport? && cmds[k2].SetViewport? ==>
            forall px, py :: !(Covers(cmds[k1].viewport, px, py) && Covers(cmds[k2].viewport, px, py)))
  {
    var d := s.directional;
    var tiles := count * d.cascadeCount;
    var split := Split(tiles);
    var tileSize := TileSize(d.atlasSize, split);
    var cmds := AtlasCommands(cr, d, lights, count, split, tileSize);
    assert tiles <= MaxTiles by {
      MulMono(count, MaxShadowedDirectionalLightCount, d.cascadeCount);
    }
    forall k | 0 <= k < |cmds| && cmds[k].SetViewport?
      ensures WithinAtlas(cmds[k].viewport, d.atlasSize)
    {
      ViewportsAreTiles(cr, d, lights, count, split, tileSize, k);
      TileWithinAtlas(k / 3, split, d.atlasSize);
    }
    forall k1, k2 | 0 <= k1 < k2 < |cmds| && cmds[k1].SetViewport? && cmds[k2].SetViewport?
      ensures forall px, py :: !(Covers(cmds[k1].viewport, px, py) && Covers(cmds[k2].viewport, px, py))
    {
      ViewportsAreTiles(cr, d, lights, count, split, tileSize, k1);
      ViewportsAreTiles(cr, d, lights, count, split, tileSize, k2);
      TilesDisjoint(k1 / 3, k2 / 3, split, tileSize);
    }
  }

  /**
    The loop of RenderDirectionalShadows as written visits all four light
    slots, not just the reserved ones. Whenever the tiles of four lights do
    not fit the grid chosen for the reserved ones, the first tile past the
    grid gets a viewport outside the atlas (for one light with one cascade
    in a 1024-pixel atlas: the viewport at (0, 1024)).
   */
  lemma AsWrittenLoopLeavesAtlas(cr: CullingResults, s: ShadowSettings, lights: seq<int>, count: int)
    requires ValidSettings(s) && 0 <= count <= MaxShadowedDirectionalLightCount && |lights| == MaxShadowedDirectionalLightCount
    requires var split := Split(count * s.directional.cascadeCount);
      && split * split < MaxShadowedDirectionalLightCount * s.directional.cascadeCount
      && s.directional.atlasSize % split == 0 && TileSize(s.directional.atlasSize, split) >= 1
    ensures var d := s.directional;
      var split := Split(count * d.cascadeCount);
      var tileSize := TileSize(d.atlasSize, split);
      var cmds := AtlasCommands(cr, d, lights, MaxShadowedDirectionalLightCount, split, tileSize);
      && 3 * (split * split) < |cmds|
      && ViewportAt(cmds, split * split).SetViewport?
      && !WithinAtlas(ViewportAt(cmds, split * split).viewport, d.atlasSize)
  {
    var d := s.directional;
    var split := Split(count * d.cascadeCount);
    var tileSize := TileSize(d.atlasSize, split);
    AtlasCommandsAt(cr, d, lights, MaxShadowedDirectionalLightCount, split, tileSize, split * split);
    TileBeyondGridLeavesAtlas(split * split, split, d.atlasSize);
  }

  /** The smallest instance: one reserved light, one cascade, a 1024-pixel atlas. */
  lemma AsWrittenOneLightExample(cr: CullingResults, lights: seq<int>)
    requires |lights| == MaxShadowedDirectionalLightCount
    ensures var d := DirectionalSettings(1024, 1, Ratios(0.1, 0.25, 0.5));
      var cmds := AtlasCommands(cr, d, lights, MaxShadowedDirectionalLightCount, Split(1), TileSize(1024, Split(1)));
      |cmds| > 3 && cmds[3] == SetViewport(Rect(0, 1024, 1024, 1024)) && !WithinAtlas(cmds[3].viewport, 1024)
  {
    var d := DirectionalSettings(1024, 1, Ratios(0.1, 0.25, 0.5));
    AtlasCommandsAt(cr, d, lights, MaxShadowedDirectionalLightCount, 1, 1024, 1);
  }

  /**
    The shadow pass of one camera frame. The two matrix and sphere arrays are
    the ones the shaders receive; shadowedDirectionalLights holds, per slot,
    the visible-light index of the light reserved there.
   */
  class Shadows {
    /** Whether the platform's depth buffer runs from 1 (near) to 0 (far). */
    const usesReversedZBuffer: bool
    const shadowedDirectionalLights: array<int>
    const dirShadowMatrices: array<Matrix4x4>
    const cascadeCullingSpheres: array<Sphere>
    var shadowedDirectionalLightCount: int
    var cullingResults: CullingResults
    var settings: ShadowSettings
    /** Commands recorded in the pass's command buffer and not yet run. */
    var buffer: seq<Command>
    /** Commands the render context has received, in order. */
    var executed: seq<Command>

    ghost predicate Valid()
      reads this
    {
      && shadowedDirectionalLights.Length == MaxShadowedDirectionalLightCount
      && dirShadowMatrices.Length == MaxTiles
      && cascadeCullingSpheres.Length == MaxCascades
      && 0 <= shadowedDirectionalLightCount <= MaxShadowedDirectionalLightCount
    }

    constructor(usesReversedZBuffer: bool, cullingResults: CullingResults, settings: ShadowSettings)
      ensures Valid() && fresh(shadowedDirectionalLights) && fresh(dirShadowMatrices) && fresh(cascadeCullingSpheres)
      ensures this.usesReversedZBuffer == usesReversedZBuffer
      ensures this.cullingResults == cullingResults && this.settings == settings
      ensures shadowedDirectionalLightCount == 0 && buffer == [] && executed == []
      ensures shadowedDirectionalLights[..] == [0, 0, 0, 0]
      ensures forall t :: 0 <= t < MaxTiles ==> dirShadowMatrices[t] == Zero
      ensures forall c :: 0 <= c < MaxCascades ==> cascadeCullingSpheres[c] == Sphere(0.0, 0.0, 0.0, 0.0)
    {
      this.usesReversedZBuffer := usesReversedZBuffer;
      shadowedDirectionalLights := new int[MaxShadowedDirectionalLightCount](_ => 0);
      dirShadowMatrices := new Matrix4x4[MaxTiles](_ => Zero);
      cascadeCullingSpheres := new Sphere[MaxCascades](_ => Sphere(0.0, 0.0, 0.0, 0.0));
      shadowedDirectionalLightCount := 0;
      this.cullingResults := cullingResults;
      this.settings := settings;
      buffer, executed := [], [];
      new;
      assert shadowedDirectionalLights[..] == [0, 0, 0, 0];
    }

    /** Start a frame: take the frame's culling results and settings, and free every slot. */
    method Setup(cullingResults: CullingResults, settings: ShadowSettings)
      requires Valid()
      modifies this`cullingResults, this`settings, this`shadowedDirectionalLightCount
      ensures Valid()
      ensures this.cullingResults == cullingResults && this.settings == settings
      ensures shadowedDirectionalLightCount == 0
    {
      this.cullingResults := cullingResults;
      this.settings := settings;
      shadowedDirectionalLightCount := 0;
    }

    /** Run the recorded commands in the render context and empty the buffer. */
    method ExecuteBuffer()
      modifies this`buffer, this`executed
      ensures executed == old(executed) + old(buffer) && buffer == []
    {
      executed := executed + buffer;
      buffer := [];
    }

    /**
      Reserve a shadow slot for a visible directional light. A light is
      admitted when a slot is free, it casts shadows, its strength is
      positive and it has shadow-caster bounds; it then takes the next slot
      and gets back its strength and its first tile (cascadeCount times its
      slot). Otherwise nothing changes and the result is zero.
     */
    method ReserveDirectionalShadows(light: Light, visibleLightIndex: int) returns (r: Vector2)
      requires Valid()
      modifies this`shadowedDirectionalLightCount, shadowedDirectionalLights
      ensures Valid()
      ensures var slot := old(shadowedDirectionalLightCount);
        if Admits(slot, light, cullingResults.hasShadowCasterBounds(visibleLightIndex)) then
          && shadowedDirectionalLightCount == slot + 1
          && shadowedDirectionalLights[..] == old(shadowedDirectionalLights[..])[slot := visibleLightIndex]
          && r == Vector2(light.shadowStrength, (settings.directional.cascadeCount * slot) as real)
        else
          && shadowedDirectionalLightCount == slot
          && shadowedDirectionalLights[..] == old(shadowedDirectionalLights[..])
          && r == Vector2(0.0, 0.0)
    {
      if shadowedDirectionalLightCount < MaxShadowedDirectionalLightCount
        && light.shadows != None && light.shadowStrength > 0.0
        && cullingResults.hasShadowCasterBounds(visibleLightIndex)
      {
        shadowedDirectionalLights[shadowedDirectionalLightCount] := visibleLightIndex;
        r := Vector2(light.shadowStrength, (settings.directional.cascadeCount * shadowedDirectionalLightCount) as real);
        shadowedDirectionalLightCount := shadowedDirectionalLightCount + 1;
      } else {
        r := Vector2(0.0, 0.0);
      }
    }

    /**
      Render the shadow atlas, as corrected: with no reserved light a 1x1
      placeholder atlas is acquired and the request is run at once; otherwise
      the tiles of the reserved lights only are rendered.
     */
    method Render()
      requires Valid() && ValidSettings(settings) && buffer == []
      modifies this`buffer, this`executed, dirShadowMatrices, cascadeCullingSpheres
      ensures Valid() && buffer == []
      ensures var a := settings.directional.atlasSize;
        HeldAfter(executed) == if shadowedDirectionalLightCount == 0 then Temporary(1, 1) else Temporary(a, a)
      ensures shadowedDirectionalLightCount == 0 ==>
        && executed == old(executed) + [GetAtlas(1, 1)]
        && dirShadowMatrices[..] == old(dirShadowMatrices[..])
        && cascadeCullingSpheres[..] == old(cascadeCullingSpheres[..])
      ensures shadowedDirectionalLightCount > 0 ==>
        RenderedAtlas(old(executed), old(dirShadowMatrices[..]), old(cascadeCullingSpheres[..]), shadowedDirectionalLightCount)
    {
      hide CascadeAtlasMatrix;
      if shadowedDirectionalLightCount > 0 {
        RenderDirectionalShadows(shadowedDirectionalLightCount);
        AtlasPassHoldsAtlas(old(executed), cullingResults, settings.directional, shadowedDirectionalLights[..],
          shadowedDirectionalLightCount, Split(shadowedDirectionalLightCount * settings.directional.cascadeCount),
          cascadeCullingSpheres[..], dirShadowMatrices[..]);
      } else {
        buffer := buffer + [GetAtlas(1, 1)];
        ExecuteBuffer();
      }
    }

    /**
      Render the shadow atlas as Shadows.cs writes it: the placeholder
      request stays in the buffer until the next ExecuteBuffer (in Cleanup),
      and the tile loop visits all four slots.
     */
    method RenderAsWritten()
      requires Valid() && ValidSettings(settings) && buffer == []
      modifies this`buffer, this`executed, dirShadowMatrices, cascadeCullingSpheres
      ensures Valid()
      ensures shadowedDirectionalLightCount == 0 ==>
        && buffer == [GetAtlas(1, 1)] && executed == old(executed)
        && dirShadowMatrices[..] == old(dirShadowMatrices[..])
        && cascadeCullingSpheres[..] == old(cascadeCullingSpheres[..])
      ensures shadowedDirectionalLightCount > 0 ==>
        && buffer == []
        && RenderedAtlas(old(executed), old(dirShadowMatrices[..]), old(cascadeCullingSpheres[..]), MaxShadowedDirectionalLightCount)
    {
      hide CascadeAtlasMatrix;
      if shadowedDirectionalLightCount > 0 {
        RenderDirectionalShadows(MaxShadowedDirectionalLightCount);
      } else {
        buffer := buffer + [GetAtlas(1, 1)];
      }
    }

    /**
      The state after an atlas pass whose tile loop visited the first slots
      slots, from the given earlier trace and array contents: the context
      has run the atlas request and clear, each visited light's tiles, and
      the upload of the arrays; the visited lights' tiles hold their atlas
      matrices, and if slot 0 was visited the spheres hold its squared
      culling spheres.
     */
    ghost predicate RenderedAtlas(executed0: seq<Command>, matrices0: seq<Matrix4x4>, spheres0: seq<Sphere>, slots: int)
      reads this, shadowedDirectionalLights, dirShadowMatrices, cascadeCullingSpheres
      requires Valid() && ValidSettings(settings) && 0 <= slots <= MaxShadowedDirectionalLightCount
      requires |matrices0| == MaxTiles && |spheres0| == MaxCascades
    {
      var d := settings.directional;
      var split := Split(shadowedDirectionalLightCount * d.cascadeCount);
      var tileSize := TileSize(d.atlasSize, split);
      var lights := shadowedDirectionalLights[..];
      var matrices := AtlasMatrices(cullingResults, d, lights, slots, split, tileSize, usesReversedZBuffer, matrices0);
      var spheres := if slots > 0 then LightSpheres(cullingResults, d, lights[0], d.cascadeCount, tileSize, spheres0) else spheres0;
      && executed == executed0 + [GetAtlas(d.atlasSize, d.atlasSize), ClearAtlas]
           + AtlasCommands(cullingResults, d, lights, slots, split, tileSize)
           + [SetShadowGlobals(d.cascadeCount, spheres, matrices)]
      && dirShadowMatrices[..] == matrices
      && cascadeCullingSpheres[..] == spheres
    }

    /**
      Lines 85-105 of Shadows.cs with the light loop bounded by slots: get
      and clear the atlas, render the tiles of the lights in the first slots
      slots, and upload the cascade count, spheres and matrices.
     */
    method RenderDirectionalShadows(slots: int)
      requires Valid() && ValidSettings(settings) && buffer == []
      requires 0 <= slots <= MaxShadowedDirectionalLightCount
      modifies this`buffer, this`executed, dirShadowMatrices, cascadeCullingSpheres
      ensures Valid() && buffer == []
      ensures RenderedAtlas(old(executed), old(dirShadowMatrices[..]), old(cascadeCullingSpheres[..]), slots)
    {
      hide CascadeAtlasMatrix;
      var d := settings.directional;
      var atlasSize := d.atlasSize;
      buffer := buffer + [GetAtlas(atlasSize, atlasSize), ClearAtlas];
      ExecuteBuffer();
      ghost var start := executed;
      assert start == old(executed) + [GetAtlas(atlasSize, atlasSize), ClearAtlas];
      var tiles := shadowedDirectionalLightCount * d.cascadeCount;
      var split := Split(tiles);
      var tileSize := TileSize(atlasSize, split);
      RenderTiles(slots, split, tileSize);
      ghost var tilePass := AtlasCommands(cullingResults, d, shadowedDirectionalLights[..], slots, split, tileSize);
      ghost var matrices, spheres := dirShadowMatrices[..], cascadeCullingSpheres[..];
      var globals := SetShadowGlobals(d.cascadeCount, cascadeCullingSpheres[..], dirShadowMatrices[..]);
      buffer := buffer + [globals];
      ExecuteBuffer();
      assert executed == start + tilePass + [globals];
      assert dirShadowMatrices[..] == matrices && cascadeCullingSpheres[..] == spheres;
    }

    /** The light loop of RenderDirectionalShadows (lines 95-98 of Shadows.cs), over the first slots slots. */
    method RenderTiles(slots: int, split: int, tileSize: int)
      requires Valid() && ValidSettings(settings) && buffer == []
      requires 0 <= slots <= MaxShadowedDirectionalLightCount && split >= 1
      modifies this`buffer, this`executed, dirShadowMatrices, cascadeCullingSpheres
      ensures Valid() && buffer == []
      ensures var d, lights := settings.directional, shadowedDirectionalLights[..];
        && executed == old(executed) + AtlasCommands(cullingResults, d, lights, slots, split, tileSize)
        && dirShadowMatrices[..]
             == AtlasMatrices(cullingResults, d, lights, slots, split, tileSize, usesReversedZBuffer, old(dirShadowMatrices[..]))
        && cascadeCullingSpheres[..]
             == if slots > 0 then LightSpheres(cullingResults, d, lights[0], d.cascadeCount, tileSize, old(cascadeCullingSpheres[..]))
                else old(cascadeCullingSpheres[..])
    {
      hide CascadeAtlasMatrix;
      var d := settings.directional;
      ghost var lights := shadowedDirectionalLights[..];
      for i := 0 to slots
        invariant Valid() && buffer == []
        invariant executed == old(executed) + AtlasCommands(cullingResults, d, lights, i, split, tileSize)
        invariant dirShadowMatrices[..]
          == AtlasMatrices(cullingResults, d, lights, i, split, tileSize, usesReversedZBuffer, old(dirShadowMatrices[..]))
        invariant cascadeCullingSpheres[..]
          == if i > 0 then LightSpheres(cullingResults, d, lights[0], d.cascadeCount, tileSize, old(cascadeCullingSpheres[..]))
             else old(cascadeCullingSpheres[..])
      {
        ghost var pass := AtlasCommands(cullingResults, d, lights, i, split, tileSize);
        RenderDirectionalShadowsForLight(i, split, tileSize);
        ghost var step := CascadeCommands(cullingResults, d, lights[i], i, d.cascadeCount, split, tileSize);
        AppendAssoc(old(executed), pass, step);
      }
    }

    /**
      Lines 108-140 of Shadows.cs: render every cascade of the light in
      slot index into its tile, storing its atlas matrix and, for slot 0,
      its squared culling sphere.
     */
    method RenderDirectionalShadowsForLight(index: int, split: int, tileSize: int)
      requires Valid() && ValidSettings(settings) && buffer == []
      requires 0 <= index < MaxShadowedDirectionalLightCount && split >= 1
      modifies this`buffer, this`executed, dirShadowMatrices, cascadeCullingSpheres
      ensures Valid() && buffer == []
      ensures var d := settings.directional; var vli := shadowedDirectionalLights[index];
        && executed == old(executed) + CascadeCommands(cullingResults, d, vli, index, d.cascadeCount, split, tileSize)
        && dirShadowMatrices[..] == LightMatrices(cullingResults, d, vli, index, d.cascadeCount, split, tileSize,
                                                  usesReversedZBuffer, old(dirShadowMatrices[..]))
        && cascadeCullingSpheres[..]
             == if index == 0 then LightSpheres(cullingResults, d, vli, d.cascadeCount, tileSize, old(cascadeCullingSpheres[..]))
                else old(cascadeCullingSpheres[..])
    {
      hide CascadeAtlasMatrix, TileRect, CascadeFor, SquaredRadius;
      var d := settings.directional;
      var visibleLightIndex := shadowedDirectionalLights[index];
      for i := 0 to d.cascadeCount
        invariant Valid() && buffer == []
        invariant executed == old(executed) + CascadeCommands(cullingResults, d, visibleLightIndex, index, i, split, tileSize)
        invariant dirShadowMatrices[..] == LightMatrices(cullingResults, d, visibleLightIndex, index, i, split, tileSize,
                                                         usesReversedZBuffer, old(dirShadowMatrices[..]))
        invariant cascadeCullingSpheres[..]
          == if index == 0 then LightSpheres(cullingResults, d, visibleLightIndex, i, tileSize, old(cascadeCullingSpheres[..]))
             else old(cascadeCullingSpheres[..])
      {
        ghost var prior := CascadeCommands(cullingResults, d, visibleLightIndex, index, i, split, tileSize);
        RenderCascade(visibleLightIndex, index, i, split, tileSize);
        ghost var c := CascadeFor(cullingResults, d, visibleLightIndex, i, tileSize);
        AppendAssoc(old(executed), prior,
          [SetViewport(TileRect(index * d.cascadeCount + i, split, tileSize)), SetViewProjection(c.view, c.projection),
           DrawShadows(visibleLightIndex, i)]);
        CascadeCommandsStep(cullingResults, d, visibleLightIndex, index, i, split, tileSize);
        LightMatricesStep(cullingResults, d, visibleLightIndex, index, i, split, tileSize, usesReversedZBuffer,
          old(dirShadowMatrices[..]));
      }
    }

    /**
      One pass of the cascade loop of RenderDirectionalShadowsForLight (lines
      124-138 of Shadows.cs): cascade i of the light in slot index.
     */
    method RenderCascade(visibleLightIndex: int, index: int, i: int, split: int, tileSize: int)
      requires Valid() && ValidSettings(settings) && buffer == []
      requires 0 <= index < MaxShadowedDirectionalLightCount && 0 <= i < settings.directional.cascadeCount && split >= 1
      modifies this`buffer, this`executed, dirShadowMatrices, cascadeCullingSpheres
      ensures Valid() && buffer == []
      ensures var d := settings.directional;
        var cascade := CascadeFor(cullingResults, d, visibleLightIndex, i, tileSize);
        var tileIndex := index * d.cascadeCount + i;
        && 0 <= tileIndex < MaxTiles
        && executed == old(executed) + [SetViewport(TileRect(tileIndex, split, tileSize)),
                                        SetViewProjection(cascade.view, cascade.projection), DrawShadows(visibleLightIndex, i)]
        && dirShadowMatrices[..]
             == old(dirShadowMatrices[..])[tileIndex := CascadeAtlasMatrix(cascade, tileIndex, split, usesReversedZBuffer)]
        && cascadeCullingSpheres[..]
             == if index == 0 then old(cascadeCullingSpheres[..])[i := SquaredRadius(cascade.cullingSphere)]
                else old(cascadeCullingSpheres[..])
    {
      hide ConvertToAtlasMatrix, Mul;
      var d := settings.directional;
      var cascade := CascadeFor(cullingResults, d, visibleLightIndex, i, tileSize);
      if index == 0 {
        cascadeCullingSpheres[i] := SquaredRadius(cascade.cullingSphere);
      }
      var tileIndex := index * d.cascadeCount + i;
      TileIndexBelowMaxTiles(index, i, d.cascadeCount);
      var viewport := TileRect(tileIndex, split, tileSize);
      buffer := buffer + [SetViewport(viewport)];
      var offset := TileOffset(tileIndex, split);
      dirShadowMatrices[tileIndex] := ConvertToAtlasMatrix(Mul(cascade.projection, cascade.view), offset, split, usesReversedZBuffer);
      buffer := buffer + [SetViewProjection(cascade.view, cascade.projection)];
      ExecuteBuffer();
      executed := executed + [DrawShadows(visibleLightIndex, i)];
    }

    /** Release the atlas: record the release and run the buffer. */
    method Cleanup()
      modifies this`buffer, this`executed
      ensures executed == old(executed) + old(buffer) + [ReleaseAtlas] && buffer == []
      ensures HeldAfter(executed) == NoTarget
    {
      buffer := buffer + [ReleaseAtlas];
      ExecuteBuffer();
    }
  }
}
