/**
 * `ugfx::sdl::SDLRenderer` (src/UniGraphics/backends/sdl/SDLRenderer.cpp): a
 * native renderer handle, the embedded default font, and two handle tables,
 * one for textures and one for fonts. Every native call is an entry appended
 * to the shared `SdlLib` log; a native outcome (a handle or null) is a
 * parameter of the operation that receives it.
 */
module SdlRendering {
  import opened Wrappers
  import opened Common
  import opened SdlNative
  import opened Resources
  import Triangle
  import opened Sequences

  /** Size in points of the embedded default font. */
  const DEFAULT_FONT_SIZE := 16

  /** What a texture load returns when it works: the handle and its queried size. */
  datatype LoadedTexture = LoadedTexture(handle: TextureHandle, width: int, height: int)

  /** The failure value of `LoadTexture`. */
  const NoTexture := Texture(0, 0, 0)

  /** The failure value of `LoadFont`. */
  const NoFont := Font(0)

  /** The calls made by the constructor, given what each native call returned. */
  function ConstructionCalls(window: Option<WindowHandle>, accelerated: Option<RendererHandle>,
                             software: Option<RendererHandle>, fontMemoryOk: bool,
                             embeddedFont: Option<FontHandle>): seq<Call>
  {
    match window
    case None => []
    case Some(w) =>
      var first := [CreateRenderer(w, Accelerated, accelerated)];
      var chosen := if accelerated.Some? then accelerated else software;
      var attempts := if accelerated.Some? then first else first + [CreateRenderer(w, SoftwareRenderer, software)];
      match chosen
      case None => attempts
      case Some(r) =>
        attempts + [SetBlendModeBlend(r)] + (if fontMemoryOk then [OpenDefaultFont(DEFAULT_FONT_SIZE, embeddedFont)] else [])
  }

  /** The deleter calls `Clear` makes on the texture table, one per released texture. */
  function DestroyTextureCalls(released: seq<TextureHandle>): (r: seq<Call>)
    ensures |r| == |released|
    ensures forall i :: 0 <= i < |released| ==> r[i] == DestroyTexture(released[i])
  {
    seq(|released|, i requires 0 <= i < |released| => DestroyTexture(released[i]))
  }

  /** The deleter calls `Clear` makes on the font table, one per released font. */
  function CloseFontCalls(released: seq<FontHandle>): (r: seq<Call>)
    ensures |r| == |released|
    ensures forall i :: 0 <= i < |released| ==> r[i] == CloseFont(released[i])
  {
    seq(|released|, i requires 0 <= i < |released| => CloseFont(released[i]))
  }

  /** `ReleaseAllResources`: release both tables, then clear through the renderer field if it is set. */
  function ReleaseCalls(renderer: Option<RendererHandle>, textureCalls: seq<Call>, fontCalls: seq<Call>): seq<Call>
  {
    textureCalls + fontCalls + (if renderer.Some? then [RenderClear(renderer.value)] else [])
  }

  /**
   * The destructor: close the default font, destroy the native renderer, then
   * `ReleaseAllResources`, which still sees the (now dangling) renderer field.
   */
  function TeardownCalls(defaultFont: Option<FontHandle>, renderer: Option<RendererHandle>,
                         textureCalls: seq<Call>, fontCalls: seq<Call>): seq<Call>
  {
    (if defaultFont.Some? then [CloseFont(defaultFont.value)] else []) +
    (if renderer.Some? then [DestroyRenderer(renderer.value)] else []) +
    ReleaseCalls(renderer, textureCalls, fontCalls)
  }

  /**
   * With a live renderer, the teardown destroys it and afterwards issues
   * `RenderClear` on the same handle, as its very last call.
   */
  lemma {:induction false} TeardownClearsDestroyedRenderer(defaultFont: Option<FontHandle>, r: RendererHandle,
                                                           textureCalls: seq<Call>, fontCalls: seq<Call>)
    ensures var t := TeardownCalls(defaultFont, Some(r), textureCalls, fontCalls);
            var k := if defaultFont.Some? then 1 else 0;
            t[k] == DestroyRenderer(r) && t[|t| - 1] == RenderClear(r) && k < |t| - 1
  {
    var t := TeardownCalls(defaultFont, Some(r), textureCalls, fontCalls);
    var head := (if defaultFont.Some? then [CloseFont(defaultFont.value)] else []) + [DestroyRenderer(r)];
    assert t == head + (textureCalls + fontCalls + [RenderClear(r)]);
  }

  /** The native line for one span. */
  function LineCall(r: RendererHandle, s: Triangle.Span): Call
  {
    RenderDrawLine(r, s.xStart, s.y, s.xEnd, s.y)
  }

  /** One native line per span, in order. */
  function LineCalls(r: RendererHandle, spans: seq<Triangle.Span>): (calls: seq<Call>)
    ensures |calls| == |spans|
    ensures forall i :: 0 <= i < |spans| ==> calls[i] == LineCall(r, spans[i])
  {
    seq(|spans|, i requires 0 <= i < |spans| => LineCall(r, spans[i]))
  }

  /** The native calls of one fill loop over rows `lo` up to but excluding `hi`. */
  function RowCalls(r: RendererHandle, a: Triangle.Point, b: Triangle.Point, c: Triangle.Point, d: Triangle.Point,
                    lo: int, hi: int): seq<Call>
    decreases hi - lo
  {
    if hi <= lo then []
    else RowCalls(r, a, b, c, d, lo, hi - 1) + [SDLRenderer.DrawSpanCall(r, hi - 1, Triangle.EdgeInterp(a, b, hi - 1), Triangle.EdgeInterp(c, d, hi - 1))]
  }

  /** The lines `DrawTriangle` draws after setting the colour: bottom loop, then top loop. */
  function TriangleCalls(r: RendererHandle, v1: Triangle.Point, v2: Triangle.Point, v3: Triangle.Point): seq<Call>
  {
    var (p1, p2, p3) := Triangle.SortByY(v1, v2, v3);
    RowCalls(r, p1, p2, p1, p3, p1.y, p2.y + 1) + RowCalls(r, p2, p3, p1, p3, p2.y, p3.y + 1)
  }

  /** A fill loop's calls are exactly one native line per span of `Triangle.Rows`. */
  lemma {:induction false} RowCallsAreLines(r: RendererHandle, a: Triangle.Point, b: Triangle.Point, c: Triangle.Point, d: Triangle.Point,
                                            lo: int, hi: int)
    decreases hi - lo
    ensures RowCalls(r, a, b, c, d, lo, hi) == LineCalls(r, Triangle.Rows(a, b, c, d, lo, hi))
  {
    if lo < hi {
      RowCallsAreLines(r, a, b, c, d, lo, hi - 1);
      var span := Triangle.DrawSpan(hi - 1, Triangle.EdgeInterp(a, b, hi - 1), Triangle.EdgeInterp(c, d, hi - 1));
      LineCallsConcat(r, Triangle.Rows(a, b, c, d, lo, hi - 1), [span]);
    }
  }

  /** So `DrawTriangle` draws one native line per span of `Triangle.TriangleSpans`, in order. */
  lemma TriangleCallsAreSpans(r: RendererHandle, v1: Triangle.Point, v2: Triangle.Point, v3: Triangle.Point)
    ensures TriangleCalls(r, v1, v2, v3) == LineCalls(r, Triangle.TriangleSpans(v1, v2, v3))
  {
    var (p1, p2, p3) := Triangle.SortByY(v1, v2, v3);
    var bottom, top := Triangle.Rows(p1, p2, p1, p3, p1.y, p2.y + 1), Triangle.Rows(p2, p3, p1, p3, p2.y, p3.y + 1);
    RowCallsAreLines(r, p1, p2, p1, p3, p1.y, p2.y + 1);
    RowCallsAreLines(r, p2, p3, p1, p3, p2.y, p3.y + 1);
    LineCallsConcat(r, bottom, top);
  }

  lemma LineCallsConcat(r: RendererHandle, s: seq<Triangle.Span>, t: seq<Triangle.Span>)
    ensures LineCalls(r, s + t) == LineCalls(r, s) + LineCalls(r, t)
  {
    assert forall i :: 0 <= i < |s + t| ==> LineCalls(r, s + t)[i] == (LineCalls(r, s) + LineCalls(r, t))[i];
  }

  class SDLRenderer {
    const lib: SdlLib
    /** `m_Renderer`; `None` is the null pointer. */
    var renderer: Option<RendererHandle>
    /** `m_DefaultFont`, owned by the renderer and not stored in `fonts`. */
    var defaultFont: Option<FontHandle>
    const textures: ResourceManager<TextureHandle>
    const fonts: ResourceManager<FontHandle>

    ghost predicate Valid()
      reads this, textures, fonts
    {
      textures.Valid() && fonts.Valid() && (textures as object) != (fonts as object)
    }

    /**
     * Try an accelerated renderer, fall back to a software one, then open the
     * embedded font at 16 points. Each failure stops construction, leaving the
     * remaining members null; a null window builds nothing.
     */
    constructor (lib: SdlLib, window: Option<WindowHandle>, accelerated: Option<RendererHandle>,
                 software: Option<RendererHandle>, fontMemoryOk: bool, embeddedFont: Option<FontHandle>)
      modifies lib
      ensures Valid() && fresh(textures) && fresh(fonts) && this.lib == lib
      ensures textures.resources == map[] && fonts.resources == map[]
      ensures textures.nextId == 1 && fonts.nextId == 1
      ensures renderer == if window.None? then None else if accelerated.Some? then accelerated else software
      ensures defaultFont == if renderer.Some? && fontMemoryOk then embeddedFont else None
      ensures lib.calls == old(lib.calls) + ConstructionCalls(window, accelerated, software, fontMemoryOk, embeddedFont)
    {
      this.lib := lib;
      textures := new ResourceManager<TextureHandle>();
      fonts := new ResourceManager<FontHandle>();
      renderer := None;
      defaultFont := None;
      new;
      if window.None? {
        return;
      }
      var w := window.value;
      var attempts := [CreateRenderer(w, Accelerated, accelerated)];
      renderer := accelerated;
      if renderer.None? {
        attempts := attempts + [CreateRenderer(w, SoftwareRenderer, software)];
        renderer := software;
        if renderer.None? {
          lib.calls := lib.calls + attempts;
          return;
        }
      }
      var setup := attempts + [SetBlendModeBlend(renderer.value)];
      if !fontMemoryOk {
        lib.calls := lib.calls + setup;
        return;
      }
      lib.calls := lib.calls + (setup + [OpenDefaultFont(DEFAULT_FONT_SIZE, embeddedFont)]);
      defaultFont := embeddedFont;
    }

    /**
     * The font `DrawText(font, ...)` renders with: the table's entry for the
     * handle, or the default font when the handle is absent.
     */
    function ResolveFont(id: int): (f: Option<FontHandle>)
      reads this, fonts
      ensures id in fonts.resources ==> f == Some(fonts.resources[id])
      ensures id !in fonts.resources ==> f == defaultFont
    {
      match fonts.Get(id)
      case Some(font) => Some(font)
      case None => defaultFont
    }

    /** Handle 0, which `DrawText(text, pos, size, color)` passes, always resolves to the default font. */
    lemma HandleZeroIsDefaultFont()
      requires Valid()
      ensures ResolveFont(0) == defaultFont
    {
      assert 0 !in fonts.issued;
    }

    /**
     * `LoadTexture`: without a renderer, or when the image does not load, the
     * result is `{0, 0, 0}` and the table is untouched; otherwise the texture is
     * added and its new handle comes back with the queried size.
     */
    method LoadTexture(path: string, loaded: Option<LoadedTexture>) returns (tex: Texture)
      requires Valid()
      requires renderer.Some? && loaded.Some? ==> textures.nextId < INT_MAX
      modifies lib, textures
      ensures Valid()
      ensures renderer.None? || loaded.None? ==>
                tex == NoTexture && textures.resources == old(textures.resources) && textures.nextId == old(textures.nextId)
      ensures renderer.Some? && loaded.Some? ==>
                tex == Texture(old(textures.nextId), loaded.value.width, loaded.value.height) &&
                tex.id >= 1 && tex.id !in old(textures.resources) &&
                textures.resources == old(textures.resources)[tex.id := loaded.value.handle] &&
                textures.nextId == old(textures.nextId) + 1
      ensures renderer.None? ==> lib.calls == old(lib.calls)
      ensures renderer.Some? ==>
                lib.calls == old(lib.calls) + [Call.LoadTexture(renderer.value, path, if loaded.Some? then Some(loaded.value.handle) else None)] +
                             (if loaded.Some? then [QueryTexture(loaded.value.handle)] else [])
    {
      if renderer.None? {
        return NoTexture;
      }
      lib.calls := lib.calls + [Call.LoadTexture(renderer.value, path, if loaded.Some? then Some(loaded.value.handle) else None)];
      if loaded.None? {
        return NoTexture;
      }
      lib.calls := lib.calls + [QueryTexture(loaded.value.handle)];
      var id := textures.Add(loaded.value.handle);
      tex := Texture(id, loaded.value.width, loaded.value.height);
    }

    /** `UnloadTexture`: destroy and forget the texture only when the handle is present. */
    method UnloadTexture(tex: Texture)
      requires Valid()
      modifies lib, textures
      ensures Valid()
      ensures textures.resources == old(textures.resources) - {tex.id}
      ensures textures.nextId == old(textures.nextId)
      ensures lib.calls == old(lib.calls) +
                (if tex.id in old(textures.resources) then [DestroyTexture(old(textures.resources)[tex.id])] else [])
    {
      var t := textures.Get(tex.id);
      if t.Some? {
        lib.calls := lib.calls + [DestroyTexture(t.value)];
        textures.Remove(tex.id);
      }
    }

    /**
     * The guard shared by `DrawTexture`, `DrawTextureRegion` and `DrawTextureEx`:
     * they draw unless the renderer is null or the handle is 0.
     */
    predicate DrawsTexture(tex: Texture)
      reads this
    {
      renderer.Some? && tex.id != 0
    }

    /**
     * The calls a texture draw makes once past its guard. The table's answer is
     * used as is, so an unknown non-zero handle reaches the native calls as null.
     */
    function TextureDrawCalls(tex: Texture, tint: Color): (calls: seq<Call>)
      requires renderer.Some?
      reads this, textures
      ensures |calls| == 2 && calls[0].SetTextureMods? && calls[1].RenderCopy?
      ensures calls[0].source == calls[1].source == textures.Get(tex.id)
    {
      var t := textures.Get(tex.id);
      [SetTextureMods(t, tint), RenderCopy(renderer.value, t)]
    }

    /** `DrawTexture` at `pos` with the texture's own size. */
    method DrawTexture(tex: Texture, pos: Vector2, tint: Color)
      modifies lib
      ensures lib.calls == old(lib.calls) + (if DrawsTexture(tex) then TextureDrawCalls(tex, tint) else [])
    {
      if renderer.None? || tex.id == 0 {
        return;
      }
      lib.calls := lib.calls + TextureDrawCalls(tex, tint);
    }

    /** `DrawTextureRegion`: the source and destination rectangles are not modelled. */
    method DrawTextureRegion(tex: Texture, src: Rectangle, dst: Vector2, tint: Color)
      modifies lib
      ensures lib.calls == old(lib.calls) + (if DrawsTexture(tex) then TextureDrawCalls(tex, tint) else [])
    {
      if renderer.None? || tex.id == 0 {
        return;
      }
      lib.calls := lib.calls + TextureDrawCalls(tex, tint);
    }

    /** `DrawTextureEx`: origin, rotation, scale and flip are not modelled. */
    method DrawTextureEx(tex: Texture, pos: Vector2, origin: Vector2, rotation: Float, scale: Float, tint: Color)
      modifies lib
      ensures lib.calls == old(lib.calls) + (if DrawsTexture(tex) then TextureDrawCalls(tex, tint) else [])
    {
      if renderer.None? || tex.id == 0 {
        return;
      }
      lib.calls := lib.calls + TextureDrawCalls(tex, tint);
    }

    /** `LoadFont` does not look at the renderer: a font that opens is added, otherwise `{0}`. */
    method LoadFont(path: string, size: int, openedFont: Option<FontHandle>) returns (font: Font)
      requires Valid()
      requires openedFont.Some? ==> fonts.nextId < INT_MAX
      modifies lib, fonts
      ensures Valid()
      ensures lib.calls == old(lib.calls) + [OpenFont(path, size, openedFont)]
      ensures openedFont.None? ==>
                font == NoFont && fonts.resources == old(fonts.resources) && fonts.nextId == old(fonts.nextId)
      ensures openedFont.Some? ==>
                font == Font(old(fonts.nextId)) && font.id >= 1 && font.id !in old(fonts.resources) &&
                fonts.resources == old(fonts.resources)[font.id := openedFont.value] &&
                fonts.nextId == old(fonts.nextId) + 1
    {
      lib.calls := lib.calls + [OpenFont(path, size, openedFont)];
      if openedFont.None? {
        return NoFont;
      }
      var id := fonts.Add(openedFont.value);
      font := Font(id);
    }

    /** `UnloadFont`: close and forget the font only when the handle is present. */
    method UnloadFont(font: Font)
      requires Valid()
      modifies lib, fonts
      ensures Valid()
      ensures fonts.resources == old(fonts.resources) - {font.id}
      ensures fonts.nextId == old(fonts.nextId)
      ensures lib.calls == old(lib.calls) +
                (if font.id in old(fonts.resources) then [CloseFont(old(fonts.resources)[font.id])] else [])
    {
      var f := fonts.Get(font.id);
      if f.Some? {
        lib.calls := lib.calls + [CloseFont(f.value)];
        fonts.Remove(font.id);
      }
    }

    /**
     * `DrawText(font, text, pos, color)`: with a renderer, render with the
     * resolved font. Rasterising, the temporary texture and the copy are one
     * native step here.
     */
    method DrawText(font: Font, text: string, pos: Vector2, color: Color)
      modifies lib
      ensures renderer.None? ==> lib.calls == old(lib.calls)
      ensures renderer.Some? ==> lib.calls == old(lib.calls) + [RenderText(renderer.value, ResolveFont(font.id), text, color)]
    {
      if renderer.None? {
        return;
      }
      var f := fonts.Get(font.id);
      if f.None? {
        f := defaultFont;
      }
      lib.calls := lib.calls + [RenderText(renderer.value, f, text, color)];
    }

    /**
     * `DrawText(text, pos, size, color)`: needs both a renderer and the default
     * font; resizes the default font, then draws with handle 0, that is, with
     * the default font.
     */
    method DrawTextSized(text: string, pos: Vector2, fontSize: int, color: Color)
      requires Valid()
      modifies lib
      ensures renderer.None? || defaultFont.None? ==> lib.calls == old(lib.calls)
      ensures renderer.Some? && defaultFont.Some? ==>
                lib.calls == old(lib.calls) + [SetFontSize(defaultFont.value, fontSize),
                                               RenderText(renderer.value, defaultFont, text, color)]
    {
      if renderer.None? || defaultFont.None? {
        return;
      }
      lib.calls := lib.calls + [SetFontSize(defaultFont.value, fontSize)];
      HandleZeroIsDefaultFont();
      DrawText(NoFont, text, pos, color);
    }

    /**
     * `ReleaseAllResources`: every stored texture is destroyed and every stored
     * font closed, exactly once each, both tables end empty (counters kept),
     * and the renderer field, if set, is cleared.
     */
    method ReleaseAllResources() returns (ghost releasedTextures: seq<TextureHandle>, ghost releasedFonts: seq<FontHandle>)
      requires Valid()
      modifies lib, textures, fonts
      ensures Valid()
      ensures textures.resources == map[] && fonts.resources == map[]
      ensures textures.nextId == old(textures.nextId) && fonts.nextId == old(fonts.nextId)
      ensures ReleasedOnce(releasedTextures, old(textures.resources))
      ensures ReleasedOnce(releasedFonts, old(fonts.resources))
      ensures lib.calls == old(lib.calls) +
                ReleaseCalls(renderer, DestroyTextureCalls(releasedTextures), CloseFontCalls(releasedFonts))
    {
      ghost var before := lib.calls;
      var texturesReleased := textures.Clear();
      var textureCalls := DestroyTextureCalls(texturesReleased);
      lib.calls := lib.calls + textureCalls;
      var fontsReleased := fonts.Clear();
      var fontCalls := CloseFontCalls(fontsReleased);
      lib.calls := lib.calls + fontCalls;
      var clearCall := if renderer.Some? then [RenderClear(renderer.value)] else [];
      lib.calls := lib.calls + clearCall;
      releasedTextures, releasedFonts := texturesReleased, fontsReleased;
      SeqAssoc3(before, textureCalls, fontCalls, clearCall);
    }

    /**
     * The destructor. The renderer field is not reset after `SDL_DestroyRenderer`,
     * so the final `RenderClear` of `ReleaseAllResources` targets a destroyed renderer.
     */
    method Destroy() returns (ghost releasedTextures: seq<TextureHandle>, ghost releasedFonts: seq<FontHandle>)
      requires Valid()
      modifies lib, textures, fonts
      ensures Valid()
      ensures textures.resources == map[] && fonts.resources == map[]
      ensures ReleasedOnce(releasedTextures, old(textures.resources))
      ensures ReleasedOnce(releasedFonts, old(fonts.resources))
      ensures lib.calls == old(lib.calls) +
                TeardownCalls(defaultFont, renderer, DestroyTextureCalls(releasedTextures), CloseFontCalls(releasedFonts))
    {
      ghost var before := lib.calls;
      var closeDefault := if defaultFont.Some? then [CloseFont(defaultFont.value)] else [];
      lib.calls := lib.calls + closeDefault;
      var destroyRenderer := if renderer.Some? then [DestroyRenderer(renderer.value)] else [];
      lib.calls := lib.calls + destroyRenderer;
      releasedTextures, releasedFonts := ReleaseAllResources();
      SeqAssoc3(before, closeDefault, destroyRenderer,
                ReleaseCalls(renderer, DestroyTextureCalls(releasedTextures), CloseFontCalls(releasedFonts)));
    }

    /**
     * `DrawTriangle` on vertices already cast to `int`: sort by y with three
     * swaps, set the colour, then fill the bottom half and the top half row by row.
     */
    method DrawTriangle(v1: Triangle.Point, v2: Triangle.Point, v3: Triangle.Point, color: Color)
      modifies lib
      ensures renderer.None? ==> lib.calls == old(lib.calls)
      ensures renderer.Some? ==>
                lib.calls == old(lib.calls) + [SetRenderDrawColor(renderer.value, color)] + TriangleCalls(renderer.value, v1, v2, v3)
    {
      if renderer.None? {
        return;
      }
      var r := renderer.value;
      var p1, p2, p3 := v1, v2, v3;
      if p2.y < p1.y {
        p1, p2 := p2, p1;
      }
      if p3.y < p1.y {
        p1, p3 := p3, p1;
      }
      if p3.y < p2.y {
        p2, p3 := p3, p2;
      }
      assert (p1, p2, p3) == Triangle.SortByY(v1, v2, v3);
      lib.calls := lib.calls + [SetRenderDrawColor(r, color)];
      ghost var start := lib.calls;
      FillSorted(r, p1, p2, p3);
      SeqAssoc(start, RowCalls(r, p1, p2, p1, p3, p1.y, p2.y + 1), RowCalls(r, p2, p3, p1, p3, p2.y, p3.y + 1));
    }

    /** The two fill loops of `DrawTriangle`, on vertices already sorted by y. */
    method FillSorted(r: RendererHandle, p1: Triangle.Point, p2: Triangle.Point, p3: Triangle.Point)
      requires p1.y <= p2.y <= p3.y
      modifies lib
      ensures lib.calls == old(lib.calls) + RowCalls(r, p1, p2, p1, p3, p1.y, p2.y + 1) + RowCalls(r, p2, p3, p1, p3, p2.y, p3.y + 1)
    {
      ghost var start := lib.calls;
      for y := p1.y to p2.y + 1
        invariant lib.calls == start + RowCalls(r, p1, p2, p1, p3, p1.y, y)
      {
        var x1 := Triangle.EdgeInterp(p1, p2, y);
        var x2 := Triangle.EdgeInterp(p1, p3, y);
        SeqAssoc(start, RowCalls(r, p1, p2, p1, p3, p1.y, y), [DrawSpanCall(r, y, x1, x2)]);
        lib.calls := lib.calls + [DrawSpanCall(r, y, x1, x2)];
      }
      ghost var middle := lib.calls;
      for y := p2.y to p3.y + 1
        invariant lib.calls == middle + RowCalls(r, p2, p3, p1, p3, p2.y, y)
      {
        var x1 := Triangle.EdgeInterp(p2, p3, y);
        var x2 := Triangle.EdgeInterp(p1, p3, y);
        SeqAssoc(middle, RowCalls(r, p2, p3, p1, p3, p2.y, y), [DrawSpanCall(r, y, x1, x2)]);
        lib.calls := lib.calls + [DrawSpanCall(r, y, x1, x2)];
      }
    }

    /** The `drawSpan` lambda: order the end points, then draw one native line. */
    static function DrawSpanCall(r: RendererHandle, y: int, x1: int, x2: int): (c: Call)
      ensures c.RenderDrawLine? && c.y1 == c.y2 == y && c.x1 <= c.x2
      ensures (c.x1, c.x2) == (x1, x2) || (c.x1, c.x2) == (x2, x1)
    {
      LineCall(r, Triangle.DrawSpan(y, x1, x2))
    }
  }
}
