/** Spawning the pieces (`create_pieces` in src/main.rs): every entry of the
    starting table is spawned, in table order, with the meshes of its type and
    the material of its colour.  Asset loading is modelled by naming the eight
    mesh primitives of the bundled chess-kit file. */
module Scene {
  import opened Common
  import opened Pieces

  /** The eight mesh primitives `create_pieces` loads, Mesh0 to Mesh7. */
  datatype MeshAsset =
    | KingMesh | KingCrossMesh | PawnMesh | KnightMesh1 | KnightMesh2
    | RookMesh | BishopMesh | QueenMesh

  /** The index of the primitive's mesh in the asset file. */
  function AssetIndex(m: MeshAsset): nat
  {
    match m
    case KingMesh => 0
    case KingCrossMesh => 1
    case PawnMesh => 2
    case KnightMesh1 => 3
    case KnightMesh2 => 4
    case RookMesh => 5
    case BishopMesh => 6
    case QueenMesh => 7
  }

  /** The piece type each primitive belongs to. */
  function MeshOwner(m: MeshAsset): PieceType
  {
    match m
    case KingMesh => King
    case KingCrossMesh => King
    case PawnMesh => Pawn
    case KnightMesh1 => Knight
    case KnightMesh2 => Knight
    case RookMesh => Rook
    case BishopMesh => Bishop
    case QueenMesh => Queen
  }

  /** The two piece materials: `white_material` and `black_material`. */
  datatype PieceMaterial = LightPiece | DarkPiece

  /** The colour-to-material match, as written: Black pieces are drawn with the
      light material and White pieces with the dark one. */
  function MaterialFor(c: PieceColor): (m: PieceMaterial)
    ensures m == LightPiece <==> c == Black
  {
    match c
    case Black => LightPiece
    case White => DarkPiece
  }

  /** The type-to-meshes match: all of the type's primitives, none of another
      type's, in the order they appear in the asset file. */
  function MeshesFor(t: PieceType): (ms: seq<MeshAsset>)
    ensures |ms| == ChildCount(t)
    ensures forall m :: m in ms <==> MeshOwner(m) == t
    ensures forall i, j :: 0 <= i < j < |ms| ==> AssetIndex(ms[i]) < AssetIndex(ms[j])
  {
    match t
    case King => [KingMesh, KingCrossMesh]
    case Pawn => [PawnMesh]
    case Knight => [KnightMesh1, KnightMesh2]
    case Rook => [RookMesh]
    case Bishop => [BishopMesh]
    case Queen => [QueenMesh]
  }

  /** What `create_pieces` spawns for one table entry. */
  function SpawnEntry(p: Piece): Spawned<MeshAsset, PieceMaterial>
  {
    Spawn(p, MeshesFor(p.ptype), MaterialFor(p.color))
  }

  /** `create_pieces`: one parent per table entry, in table order. */
  method CreatePieces() returns (spawned: seq<Spawned<MeshAsset, PieceMaterial>>)
    ensures |spawned| == |BasePieces|
    ensures forall k :: 0 <= k < |spawned| ==> spawned[k] == SpawnEntry(BasePieces[k])
  {
    spawned := [];
    for k := 0 to |BasePieces|
      invariant |spawned| == k
      invariant forall n :: 0 <= n < k ==> spawned[n] == SpawnEntry(BasePieces[n])
    {
      var piece := BasePieces[k];
      var material := MaterialFor(piece.color);
      var meshes := MeshesFor(piece.ptype);
      spawned := spawned + [Spawn(piece, meshes, material)];
    }
  }

  /** The spawned parents stand on distinct board squares, and every child is
      drawn with a primitive of its own piece's type in its side's material. */
  lemma SceneWellFormed()
    ensures forall k :: 0 <= k < |BasePieces| ==>
      var s := SpawnEntry(BasePieces[k]);
      0.0 <= s.translation.x <= 7.0 && s.translation.y == 0.0 && 0.0 <= s.translation.z <= 7.0
    ensures forall k1, k2 :: 0 <= k1 < |BasePieces| && 0 <= k2 < |BasePieces| && k1 != k2 ==>
      SpawnEntry(BasePieces[k1]).translation != SpawnEntry(BasePieces[k2]).translation
    ensures forall k, i :: 0 <= k < |BasePieces| && 0 <= i < |SpawnEntry(BasePieces[k]).children| ==>
      var c := SpawnEntry(BasePieces[k]).children[i];
      MeshOwner(c.mesh) == BasePieces[k].ptype && c.material == MaterialFor(BasePieces[k].color)
  {
    SquaresOnBoardAndDistinct();
    forall k1, k2 | 0 <= k1 < |BasePieces| && 0 <= k2 < |BasePieces| && k1 != k2
      ensures SpawnEntry(BasePieces[k1]).translation != SpawnEntry(BasePieces[k2]).translation
    {
      var p1, p2 := BasePieces[k1], BasePieces[k2];
      assert (p1.x, p1.y) != (p2.x, p2.y);
    }
    forall k, i | 0 <= k < |BasePieces| && 0 <= i < |SpawnEntry(BasePieces[k]).children|
      ensures MeshOwner(SpawnEntry(BasePieces[k]).children[i].mesh) == BasePieces[k].ptype
    {
      var t := BasePieces[k].ptype;
      assert MeshesFor(t)[i] in MeshesFor(t);
    }
  }
}
