/** `Chunk::getChunkBorders`: the wireframe box that outlines one chunk. */
module Chunk {
  import opened GameObjects

  /** The six face switches `getChunkBorders` passes to `Block::getCubeFaces`, in
      argument order. */
  const BorderFaceFlags: seq<bool> := [true, true, false, false, true, true]

  /** Where the border faces are requested: the chunk's grid position at height 0. */
  function BorderPosition(chunkPos: Vec2): Vec3
  {
    Vec3(chunkPos.x, chunkPos.y, 0.0)
  }

  /** The extent of the border box: CHUNK_SIZE by CHUNK_SIZE by CHUNK_DEPTH. */
  function BorderSize(chunkSize: nat, chunkDepth: nat): Vec3
  {
    Vec3(chunkSize as real, chunkSize as real, chunkDepth as real)
  }

  /** Builds the border object of the chunk at `chunkPos`.
      `created` is the object `GameObject::createGameObject` handed out (it carries the
      fresh id); `cubeFaces` stands for `Block::getCubeFaces`; `chunkSize` and
      `chunkDepth` are CHUNK_SIZE and CHUNK_DEPTH. The faces' vertex and index lists are
      copied one element at a time into a fresh builder, from which the model is made. */
  method GetChunkBorders(
    created: GameObject,
    chunkPos: Vec2,
    chunkSize: nat,
    chunkDepth: nat,
    cubeFaces: (Vec3, Vec3, seq<bool>) -> Builder)
    returns (obj: GameObject)
    // the model holds exactly the requested faces, element for element and in order
    ensures var faces := cubeFaces(BorderPosition(chunkPos), BorderSize(chunkSize, chunkDepth), BorderFaceFlags);
            && obj.model.Some?
            && obj.model.value.vertices == faces.vertices
            && obj.model.value.indices == faces.indices
            && obj.model.value.VertexCount() == |faces.vertices|
            && obj.model.value.IndexCount() == |faces.indices|
    // a red wireframe at the origin that starts hidden
    ensures obj.isWireFrame && !obj.isActive
    ensures obj.color == Red && obj.transform.translation == Origin
    // everything else is as the factory created it
    ensures obj.id == created.id && obj.renderMode == created.renderMode
    ensures obj.transform.scale == created.transform.scale
    ensures obj.transform.rotation == created.transform.rotation
  {
    var size := BorderSize(chunkSize, chunkDepth);
    var pos := BorderPosition(chunkPos);
    var faces := cubeFaces(pos, size, BorderFaceFlags);

    var vertices: seq<Vertex> := [];
    var i := 0;
    while i < |faces.vertices|
      invariant 0 <= i <= |faces.vertices|
      invariant vertices == faces.vertices[..i]
    {
      vertices := vertices + [faces.vertices[i]];
      i := i + 1;
    }
    var indices: seq<u32> := [];
    var j := 0;
    while j < |faces.indices|
      invariant 0 <= j <= |faces.indices|
      invariant indices == faces.indices[..j]
    {
      indices := indices + [faces.indices[j]];
      j := j + 1;
    }
    var bordersBuilder := Builder(vertices, indices);

    obj := created;
    obj := obj.(model := Some(Model(bordersBuilder.vertices, bordersBuilder.indices)));
    obj := obj.(color := Red);
    obj := obj.(transform := obj.transform.(translation := Origin));
    obj := obj.(isWireFrame := true);
    obj := obj.(isActive := false);
  }
}
