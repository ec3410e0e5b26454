/**
 * SpriteRenderBatch (gl/batches/SpriteRenderBatch.java): a batch of up to
 * MAX_BATCH_SIZE sprites drawn together. Each sprite is a quad of four
 * vertices of ten floats (position, colour, texture coordinates, texture
 * slot, entity id) written in place into the vertex array; the element
 * array names each quad's two triangles; the batch keeps the distinct
 * textures its sprites use, a sprite's texture slot being its position in
 * that list plus one (slot 0 meaning "no texture").
 *
 * The GL calls (buffers, vertex attributes, shaders, drawing) are not part
 * of this model; floats are reals, and the cosine and sine of a sprite's
 * rotation are a parameter, since the trigonometry is library code.
 */
module SpriteBatches {
  import opened Wrappers
  import C = Constants

  /** Floats per vertex: position 2, colour 4, texture coordinates 2, texture slot 1, entity id 1. */
  const VertexSize: int := 10
  /** Floats per sprite: four vertices. */
  const SpriteFloats: int := 40
  /** The texture slots a batch can bind. */
  const TextureSlots: int := 8

  /** A texture, compared by identity as Texture objects are. */
  datatype Texture = Texture(handle: nat)

  datatype Vec2 = Vec2(x: real, y: real)
  datatype Color = Color(r: real, g: real, b: real, a: real)

  /** What the batch reads of a sprite component: its texture, colour, four texture coordinates and transform. */
  datatype Sprite = Sprite(texture: Option<Texture>, color: Color,
                           uv0: Vec2, uv1: Vec2, uv2: Vec2, uv3: Vec2,
                           position: Vec2, scale: Vec2, rotation: real)

  /** The cosine and sine of a rotation given in degrees. */
  type Turn = real -> Vec2

  // ---- element indices ----

  /** The vertex a quad's k-th element names, relative to the quad's first vertex: 3, 2, 0, 0, 2, 1. */
  function QuadCorner(k: int): (c: int)
    requires 0 <= k < 6
    ensures 0 <= c < 4
  {
    if k == 0 then 3 else if k == 1 then 2 else if k == 2 then 0
    else if k == 3 then 0 else if k == 4 then 2 else 1
  }

  /** Element e of the index array: quad e / 6 names its vertices from 4 * (e / 6). */
  function Element(e: int): int
    requires 0 <= e
  {
    4 * (e / 6) + QuadCorner(e % 6)
  }

  /** Quad i's six elements are 4i+3, 4i+2, 4i, 4i, 4i+2, 4i+1. */
  lemma QuadElements(i: int)
    requires 0 <= i
    ensures Element(6 * i) == 4 * i + 3 && Element(6 * i + 1) == 4 * i + 2 && Element(6 * i + 2) == 4 * i
    ensures Element(6 * i + 3) == 4 * i && Element(6 * i + 4) == 4 * i + 2 && Element(6 * i + 5) == 4 * i + 1
  {
    assert (6 * i) / 6 == i && (6 * i + 1) / 6 == i && (6 * i + 2) / 6 == i;
    assert (6 * i + 3) / 6 == i && (6 * i + 4) / 6 == i && (6 * i + 5) / 6 == i;
  }

  /**
   * Each quad's two triangles have three different vertices each, share
   * the diagonal 4i+2 to 4i, and together use the quad's four vertices and
   * no other: every element of quad i lies in 4i .. 4i+3.
   */
  lemma QuadTrianglesCoverTheQuad(i: int)
    requires 0 <= i
    ensures forall e :: 6 * i <= e < 6 * i + 6 ==> 4 * i <= Element(e) < 4 * i + 4
    ensures Element(6 * i) != Element(6 * i + 1) && Element(6 * i + 1) != Element(6 * i + 2) && Element(6 * i + 2) != Element(6 * i)
    ensures Element(6 * i + 3) != Element(6 * i + 4) && Element(6 * i + 4) != Element(6 * i + 5) && Element(6 * i + 5) != Element(6 * i + 3)
    ensures {Element(6 * i), Element(6 * i + 1), Element(6 * i + 2), Element(6 * i + 3), Element(6 * i + 4), Element(6 * i + 5)}
            == {4 * i, 4 * i + 1, 4 * i + 2, 4 * i + 3}
  {
    QuadElements(i);
    forall e | 6 * i <= e < 6 * i + 6
      ensures 4 * i <= Element(e) < 4 * i + 4
    {
      assert e / 6 == i;
    }
  }

  /** `loadElementIndices`: quad `index`'s six elements, written in place. */
  method LoadElementIndices(elements: array<int>, index: int)
    requires 0 <= index && 6 * index + 6 <= elements.Length
    modifies elements
    ensures forall e :: 6 * index <= e < 6 * index + 6 ==> elements[e] == Element(e)
    ensures forall e :: 0 <= e < elements.Length && !(6 * index <= e < 6 * index + 6) ==> elements[e] == old(elements[e])
  {
    var quadOffset := 6 * index;
    var offset := 4 * index;
    QuadElements(index);
    elements[quadOffset] := offset + 3;
    elements[quadOffset + 1] := offset + 2;
    elements[quadOffset + 2] := offset;
    elements[quadOffset + 3] := offset;
    elements[quadOffset + 4] := offset + 2;
    elements[quadOffset + 5] := offset + 1;
  }

  /** `generateIndices` for a batch of n quads: six elements per quad, quad i's at 6i. */
  method GenerateIndices(n: int) returns (elements: array<int>)
    requires n >= 0
    ensures fresh(elements)
    ensures elements.Length == 6 * n
    ensures forall e :: 0 <= e < elements.Length ==> elements[e] == Element(e)
  {
    elements := new int[6 * n];
    var i := 0;
    while i < n
      invariant 0 <= i <= n
      invariant forall e :: 0 <= e < 6 * i ==> elements[e] == Element(e)
    {
      LoadElementIndices(elements, i);
      i := i + 1;
    }
  }

  /** Every element of a batch of n quads names one of its 4n vertices. */
  lemma ElementsNameBatchVertices(n: int, e: int)
    requires 0 <= e < 6 * n
    ensures 0 <= Element(e) < 4 * n
  {
    assert e / 6 < n;
  }

  // ---- textures ----

  /** Whether no texture is listed twice. */
  predicate Distinct(textures: seq<Texture>)
  {
    forall i, j :: 0 <= i < j < |textures| ==> textures[i] != textures[j]
  }

  /** The texture list after a sprite with the given texture joins: a new texture is appended once. */
  function WithTexture(textures: seq<Texture>, texture: Option<Texture>): (r: seq<Texture>)
    ensures Distinct(textures) ==> Distinct(r)
    ensures texture.Some? ==> texture.value in r
    ensures forall t :: t in r <==> t in textures || texture == Some(t)
  {
    if texture.Some? && texture.value !in textures then textures + [texture.value] else textures
  }

  /** The texture slot of a sprite: its texture's position in the list plus one, or 0 for none. */
  function TexId(textures: seq<Texture>, texture: Option<Texture>): (id: int)
    ensures 0 <= id <= |textures|
    ensures id > 0 ==> texture.Some? && textures[id - 1] == texture.value
    ensures id > 0 ==> forall k :: 0 <= k < id - 1 ==> textures[k] != texture.value
    ensures id == 0 <==> texture.None? || texture.value !in textures
  {
    if texture.None? then 0 else FirstFrom(textures, texture.value, 0)
  }

  /** One plus the position of the first t at or after i, or 0. */
  function FirstFrom(textures: seq<Texture>, t: Texture, i: nat): (id: int)
    requires i <= |textures|
    ensures id == 0 || i < id <= |textures|
    ensures id > 0 ==> textures[id - 1] == t && forall k :: i <= k < id - 1 ==> textures[k] != t
    ensures id == 0 <==> forall k :: i <= k < |textures| ==> textures[k] != t
    decreases |textures| - i
  {
    if i == |textures| then 0
    else if textures[i] == t then i + 1
    else FirstFrom(textures, t, i + 1)
  }

  // ---- vertices ----

  /** The corner offsets of vertex i of a quad: (1,1), (1,0), (0,0), (0,1). */
  function XAdd(i: int): real { if i <= 1 then 1.0 else 0.0 }
  function YAdd(i: int): real { if i == 1 || i == 2 then 0.0 else 1.0 }

  /**
   * The position of vertex i. An unrotated sprite's quad is centred on its
   * position; a rotated one is the corner offset scaled, rotated and then
   * moved to the position.
   */
  function Corner(s: Sprite, i: int, turn: Turn): Vec2
  {
    if s.rotation != 0.0 then
      var cs := turn(s.rotation);
      var sx := XAdd(i) * s.scale.x;
      var sy := YAdd(i) * s.scale.y;
      Vec2(s.position.x + cs.x * sx - cs.y * sy, s.position.y + cs.y * sx + cs.x * sy)
    else
      Vec2(s.position.x + XAdd(i) * s.scale.x - s.scale.x / 2.0,
           s.position.y + YAdd(i) * s.scale.y - s.scale.y / 2.0)
  }

  function UV(s: Sprite, i: int): Vec2
  {
    if i == 0 then s.uv0 else if i == 1 then s.uv1 else if i == 2 then s.uv2 else s.uv3
  }

  /** Float f of vertex i of a sprite drawn with texture slot texId. */
  function VertexFloat(s: Sprite, texId: int, i: int, f: int, turn: Turn): real
  {
    if f == 0 then Corner(s, i, turn).x
    else if f == 1 then Corner(s, i, turn).y
    else if f == 2 then s.color.r
    else if f == 3 then s.color.g
    else if f == 4 then s.color.b
    else if f == 5 then s.color.a
    else if f == 6 then UV(s, i).x
    else if f == 7 then UV(s, i).y
    else if f == 8 then texId as real
    else -1.0
  }

  /** The four vertices of an unrotated sprite span its scale and are centred on its position. */
  lemma UnrotatedQuadIsCentred(s: Sprite, turn: Turn)
    requires s.rotation == 0.0
    ensures Corner(s, 0, turn).x - Corner(s, 2, turn).x == s.scale.x
    ensures Corner(s, 0, turn).y - Corner(s, 2, turn).y == s.scale.y
    ensures Corner(s, 0, turn).x + Corner(s, 2, turn).x == 2.0 * s.position.x
    ensures Corner(s, 0, turn).y + Corner(s, 2, turn).y == 2.0 * s.position.y
    ensures Corner(s, 1, turn) == Vec2(Corner(s, 0, turn).x, Corner(s, 2, turn).y)
    ensures Corner(s, 3, turn) == Vec2(Corner(s, 2, turn).x, Corner(s, 0, turn).y)
  {
  }

  class SpriteRenderBatch {
    const maxBatchSize: int
    const zIndex: int
    /** The sprite components added since the last clear, in slots 0 .. numSprites - 1 (`sprites`). */
    const sprites: array<Option<Sprite>>
    /** The vertex array: the sprite in slot k owns floats 40k .. 40k + 39 (`vertices`). */
    const vertices: array<real>
    var numSprites: int
    var hasRoom: bool
    /** The distinct textures of the batch's sprites, in order of first use (`textures`). */
    var textures: seq<Texture>

    /**
     * The sprite count is within the batch, the batch has room exactly
     * while it is not full, and no texture is listed twice.
     */
    ghost predicate Valid()
      reads this
    {
      && maxBatchSize > 0
      && sprites.Length == maxBatchSize
      && vertices.Length == SpriteFloats * maxBatchSize
      && 0 <= numSprites <= maxBatchSize
      && (hasRoom <==> numSprites < maxBatchSize)
      && Distinct(textures)
    }

    constructor(zIndex: int)
      ensures Valid()
      ensures maxBatchSize == C.MaxBatchSize && this.zIndex == zIndex
      ensures numSprites == 0 && hasRoom && textures == []
      ensures fresh(sprites) && fresh(vertices)
    {
      this.zIndex := zIndex;
      maxBatchSize := C.MaxBatchSize;
      sprites := new Option<Sprite>[C.MaxBatchSize](_ => None);
      vertices := new real[C.MaxBatchSize * 4 * VertexSize];
      numSprites := 0;
      hasRoom := true;
      textures := [];
    }

    /** `clear`: no sprites, room again and no textures; the arrays keep their contents. */
    method Clear()
      requires Valid()
      modifies this`numSprites, this`hasRoom, this`textures
      ensures Valid()
      ensures numSprites == 0 && hasRoom && textures == []
    {
      numSprites := 0;
      hasRoom := true;
      textures := [];
    }

    /** `hasTextureRoom`: fewer than eight textures. */
    predicate HasTextureRoom()
      reads this
      ensures HasTextureRoom() ==> forall t :: |WithTexture(textures, Some(t))| <= TextureSlots
      ensures !HasTextureRoom() ==> |textures| >= TextureSlots
    {
      |textures| < TextureSlots
    }

    /** `hasTexture`. */
    predicate HasTexture(texture: Texture)
      reads this
      ensures HasTexture(texture) <==> TexId(textures, Some(texture)) > 0
    {
      texture in textures
    }

    /** `compareTo`: batches are ordered by their z index, as `Integer.compare` orders ints. */
    function CompareTo(other: SpriteRenderBatch): (r: int)
      reads this, other
      ensures r == -1 || r == 0 || r == 1
      ensures r < 0 <==> zIndex < other.zIndex
      ensures r == 0 <==> zIndex == other.zIndex
    {
      if zIndex < other.zIndex then -1 else if zIndex == other.zIndex then 0 else 1
    }

    /**
     * `addSprite`: the sprite takes the next slot, its texture joins the
     * list if it is new, its four vertices are written, and the batch has
     * no room once it is full. When the batch is already full the store
     * into the sprite array throws, before anything changes (ok is false).
     */
    method AddSprite(sprite: Sprite, turn: Turn) returns (ok: bool)
      requires Valid()
      modifies this`numSprites, this`hasRoom, this`textures, sprites, vertices
      ensures Valid()
      ensures ok <==> old(numSprites) < maxBatchSize
      ensures !ok ==> numSprites == old(numSprites) && hasRoom == old(hasRoom) && textures == old(textures)
                      && sprites[..] == old(sprites[..]) && vertices[..] == old(vertices[..])
      ensures ok ==> numSprites == old(numSprites) + 1
      ensures ok ==> sprites[..] == old(sprites[..])[old(numSprites) := Some(sprite)]
      ensures ok ==> textures == WithTexture(old(textures), sprite.texture)
      ensures ok ==> forall k :: 0 <= k < SpriteFloats ==>
                       vertices[SpriteFloats * old(numSprites) + k]
                       == VertexFloat(sprite, TexId(textures, sprite.texture), k / VertexSize, k % VertexSize, turn)
      ensures ok ==> forall e :: 0 <= e < vertices.Length && !(SpriteFloats * old(numSprites) <= e < SpriteFloats * old(numSprites) + SpriteFloats)
                       ==> vertices[e] == old(vertices[e])
    {
      var index := numSprites;
      if index >= sprites.Length {
        return false;
      }
      sprites[index] := Some(sprite);
      numSprites := numSprites + 1;
      if sprite.texture.Some? && sprite.texture.value !in textures {
        textures := textures + [sprite.texture.value];
      }
      var texId := FindTexId(sprite.texture);
      LoadVertexProperties(index, sprite, texId, turn);
      if numSprites >= maxBatchSize {
        hasRoom := false;
      }
      ok := true;
    }

    /** The texture-slot search of `loadVertexProperties`. */
    method FindTexId(texture: Option<Texture>) returns (texId: int)
      ensures texId == TexId(textures, texture)
    {
      texId := 0;
      if texture.Some? {
        var i := 0;
        while i < |textures|
          invariant 0 <= i <= |textures|
          invariant FirstFrom(textures, texture.value, 0) == FirstFrom(textures, texture.value, i)
        {
          if textures[i] == texture.value {
            texId := i + 1;
            return;
          }
          i := i + 1;
        }
      }
    }

    /** `loadVertexProperties`: the sprite's four vertices, ten floats each, written into its block of the vertex array. */
    method LoadVertexProperties(index: int, sprite: Sprite, texId: int, turn: Turn)
      requires 0 <= index && SpriteFloats * index + SpriteFloats <= vertices.Length
      modifies vertices
      ensures forall k :: 0 <= k < SpriteFloats ==>
                vertices[SpriteFloats * index + k] == VertexFloat(sprite, texId, k / VertexSize, k % VertexSize, turn)
      ensures forall e :: 0 <= e < vertices.Length && !(SpriteFloats * index <= e < SpriteFloats * index + SpriteFloats)
                ==> vertices[e] == old(vertices[e])
    {
      var base := SpriteFloats * index;
      var i := 0;
      while i < 4
        invariant 0 <= i <= 4
        invariant forall k :: 0 <= k < VertexSize * i ==>
                    vertices[base + k] == VertexFloat(sprite, texId, k / VertexSize, k % VertexSize, turn)
        invariant forall e :: 0 <= e < vertices.Length && !(base <= e < base + VertexSize * i) ==> vertices[e] == old(vertices[e])
      {
        WriteVertex(base + VertexSize * i, i, sprite, texId, turn);
        i := i + 1;
      }
    }

    /** The body of the vertex loop: vertex i's ten floats at offset. */
    method WriteVertex(offset: int, i: int, sprite: Sprite, texId: int, turn: Turn)
      requires 0 <= offset && offset + VertexSize <= vertices.Length && 0 <= i < 4
      modifies vertices
      ensures forall f :: 0 <= f < VertexSize ==> vertices[offset + f] == VertexFloat(sprite, texId, i, f, turn)
      ensures forall e :: 0 <= e < vertices.Length && !(offset <= e < offset + VertexSize) ==> vertices[e] == old(vertices[e])
    {
      var pos := Corner(sprite, i, turn);
      var uv := UV(sprite, i);
      vertices[offset] := pos.x;
      vertices[offset + 1] := pos.y;
      vertices[offset + 2] := sprite.color.r;
      vertices[offset + 3] := sprite.color.g;
      vertices[offset + 4] := sprite.color.b;
      vertices[offset + 5] := sprite.color.a;
      vertices[offset + 6] := uv.x;
      vertices[offset + 7] := uv.y;
      vertices[offset + 8] := texId as real;
      vertices[offset + 9] := -1.0;
    }
  }
}
