/** The chunk record of app/src/models/chunk.py: a cell of the world grid with
    a numeric biome, map and (x, y) position, and the integer rules the model
    attaches to it. */
module ChunkModel {

  /** The number of chunks the adjacency rule assumes ("Assumindo 1000 chunks"). */
  const MaxChunks: int := 1000

  /** The default `map_size` argument of get_adjacent_chunk_ids: the grid width. */
  const DefaultMapSize: int := 32

  datatype Chunk = Chunk(idChunk: int, idBioma: int, idMapa: int, x: int, y: int)

  // ---------------------------------------------------------------------------
  // day and night

  /** `x % 2 == 0`; Python's floored % and Dafny's Euclidean % agree for divisor 2. */
  predicate IsDay(c: Chunk) {
    c.x % 2 == 0
  }

  predicate IsNight(c: Chunk) {
    c.x % 2 != 0
  }

  /** A chunk is in daylight exactly when x is even, and at night exactly when it is not. */
  lemma DayIffEven(c: Chunk)
    ensures IsDay(c) <==> exists k :: c.x == 2 * k
    ensures IsNight(c) <==> !IsDay(c)
  {
    if IsDay(c) {
      assert c.x == 2 * (c.x / 2);
    }
  }

  // ---------------------------------------------------------------------------
  // neighbours

  /** The neighbour list of get_adjacent_chunk_ids, in the order the code appends:
      left, right, up, down. Each candidate is guarded only by a bound on the
      id, so the rule knows nothing of rows and columns. */
  function AdjacentChunkIds(id: int, mapSize: int): (r: seq<int>)
    ensures |r| <= 4
    ensures forall k :: k in r <==>
      (k == id - 1 && id > 1) ||
      (k == id + 1 && id < MaxChunks) ||
      (k == id - mapSize && id > mapSize) ||
      (k == id + mapSize && id <= MaxChunks - mapSize)
  {
    (if id > 1 then [id - 1] else [])
    + (if id < MaxChunks then [id + 1] else [])
    + (if id > mapSize then [id - mapSize] else [])
    + (if id <= MaxChunks - mapSize then [id + mapSize] else [])
  }

  /** get_adjacent_chunk_ids, with its conditional appends. */
  method GetAdjacentChunkIds(c: Chunk, mapSize: int) returns (adjacent: seq<int>)
    ensures adjacent == AdjacentChunkIds(c.idChunk, mapSize)
    ensures |adjacent| <= 4
  {
    adjacent := [];
    if c.idChunk > 1 {
      adjacent := adjacent + [c.idChunk - 1];
    }
    if c.idChunk < MaxChunks {
      adjacent := adjacent + [c.idChunk + 1];
    }
    if c.idChunk > mapSize {
      adjacent := adjacent + [c.idChunk - mapSize];
    }
    if c.idChunk <= MaxChunks - mapSize {
      adjacent := adjacent + [c.idChunk + mapSize];
    }
  }

  /** A chunk is never its own neighbour, and every neighbour of a valid id is a valid id. */
  lemma AdjacentExcludesSelfAndStaysInRange(id: int, mapSize: int)
    requires 1 <= id <= MaxChunks && mapSize > 0
    ensures id !in AdjacentChunkIds(id, mapSize)
    ensures forall k :: k in AdjacentChunkIds(id, mapSize) ==> 1 <= k <= MaxChunks
  {
  }

  /** For ids in 1..1000 the four guards make adjacency symmetric. */
  lemma AdjacentSymmetric(a: int, b: int, mapSize: int)
    requires 1 <= a <= MaxChunks && 1 <= b <= MaxChunks
    ensures b in AdjacentChunkIds(a, mapSize) <==> a in AdjacentChunkIds(b, mapSize)
  {
  }

  /** On the default width, chunk 500 has exactly the neighbours 499, 501, 468 and 532. */
  lemma Chunk500Neighbours()
    ensures AdjacentChunkIds(500, DefaultMapSize) == [499, 501, 468, 532]
  {
  }

  // ---------------------------------------------------------------------------
  // rows and columns of the width-32 numbering

  /** Column and row of a chunk id (ids start at 1). */
  function Column(id: int): int {
    (id - 1) % DefaultMapSize
  }

  function Row(id: int): int {
    (id - 1) / DefaultMapSize
  }

  /** Two ids are neighbours on the grid: side by side in one row, or one above the other. */
  predicate GridNeighbours(a: int, b: int) {
    (Row(a) == Row(b) && (Column(a) - Column(b) == 1 || Column(b) - Column(a) == 1))
    || (Column(a) == Column(b) && (Row(a) - Row(b) == 1 || Row(b) - Row(a) == 1))
  }

  /** The rule as written links the last chunk of one row to the first of the next:
      32 and 33 are listed as neighbours though they are not grid neighbours. */
  lemma AdjacencyWrapsAcrossRows()
    ensures 33 in AdjacentChunkIds(32, DefaultMapSize)
    ensures 32 in AdjacentChunkIds(33, DefaultMapSize)
    ensures Row(32) == 0 && Row(33) == 1
    ensures !GridNeighbours(32, 33)
  {
  }

  /** The neighbour list with the row edges respected: the left neighbour is
      dropped in the first column and the right one in the last column. */
  function GridAdjacentChunkIds(id: int): (r: seq<int>)
    ensures |r| <= 4
  {
    (if id > 1 && Column(id) != 0 then [id - 1] else [])
    + (if id < MaxChunks && Column(id) != DefaultMapSize - 1 then [id + 1] else [])
    + (if id > DefaultMapSize then [id - DefaultMapSize] else [])
    + (if id <= MaxChunks - DefaultMapSize then [id + DefaultMapSize] else [])
  }

  /** Splitting an id into row and column. */
  lemma RowColumn(id: int)
    requires id >= 1
    ensures id == DefaultMapSize * Row(id) + Column(id) + 1
    ensures 0 <= Column(id) < DefaultMapSize && Row(id) >= 0
  {
  }

  /** Ids with the same row and column are equal. */
  lemma RowColumnDetermineId(a: int, b: int)
    requires a >= 1 && b >= 1
    ensures a == b <==> Row(a) == Row(b) && Column(a) == Column(b)
  {
    RowColumn(a);
    RowColumn(b);
  }

  /** For valid ids, the grid-aware list holds exactly the grid neighbours in 1..1000. */
  lemma GridAdjacentIsGrid(a: int, b: int)
    requires 1 <= a <= MaxChunks
    ensures b in GridAdjacentChunkIds(a) <==> 1 <= b <= MaxChunks && GridNeighbours(a, b)
  {
    if 1 <= b {
      RowColumn(a);
      RowColumn(b);
    }
  }

  /** Consequently the grid-aware rule is symmetric as well. */
  lemma GridAdjacentSymmetric(a: int, b: int)
    requires 1 <= a <= MaxChunks && 1 <= b <= MaxChunks
    ensures b in GridAdjacentChunkIds(a) <==> a in GridAdjacentChunkIds(b)
  {
    GridAdjacentIsGrid(a, b);
    GridAdjacentIsGrid(b, a);
  }

  // ---------------------------------------------------------------------------
  // map membership and identity

  /** belongs_to_map compares its two arguments with id_mapa and x. */
  predicate BelongsToMap(c: Chunk, mapaNome: int, mapaTurno: int) {
    c.idMapa == mapaNome && c.x == mapaTurno
  }

  function GetMapKey(c: Chunk): (int, int) {
    (c.idMapa, c.x)
  }

  /** A chunk belongs to (a, b) exactly when its map key is (a, b). */
  lemma BelongsIffMapKey(c: Chunk, a: int, b: int)
    ensures BelongsToMap(c, a, b) <==> GetMapKey(c) == (a, b)
  {
  }

  /** __eq__: two chunks are equal when their primary keys are. */
  predicate SameChunk(a: Chunk, b: Chunk) {
    a.idChunk == b.idChunk
  }

  /** The value __hash__ hashes. */
  function ChunkHashKey(c: Chunk): int {
    c.idChunk
  }

  /** Equality and hash look only at id_chunk: chunks differing in every other
      field are equal, and equal chunks hash alike. */
  lemma ChunkIdentityIsId(a: Chunk, b: Chunk)
    ensures SameChunk(a, b) <==> ChunkHashKey(a) == ChunkHashKey(b)
    ensures SameChunk(a, b) <==> SameChunk(a.(idBioma := b.idBioma, idMapa := b.idMapa, x := b.x, y := b.y), b)
  {
  }
}
