/** The coordinating layer InterfaceService of
    app/src/services/interface_service.py, which delegates to a GameService.
    The queries it makes of the chunk and map repositories directly read rows
    of the shape app/src/models/chunk.py declares (`id_chunk`, `id_bioma`,
    `id_mapa`) and map rows carrying a numeric `id_mapa`; those rows are held
    by the service here. This is the intended reading: the repositories build
    chunks with other keywords and maps without an `id_mapa`, so the code as
    written finds no adjacent chunk and no desert chunk. */
module InterfaceServiceModel {
  import opened Common
  import Seqs
  import opened ChunkModel
  import opened MapaModel
  import opened PlayerModel
  import opened GameServiceModel

  // ---------------------------------------------------------------------------
  // get_adjacent_chunks

  function Abs(x: int): nat {
    if x < 0 then -x else x
  }

  /** The distance-only test: ids one apart or one row (32) apart. */
  predicate DistanceAdjacent(a: int, b: int) {
    Abs(a - b) == 1 || Abs(a - b) == 32
  }

  function Near(c: int): Chunk -> bool {
    (ch: Chunk) => DistanceAdjacent(ch.idChunk, c)
  }

  /** The `(id_chunk, id_bioma)` pair of each row, in order. */
  function Pairs(cs: seq<Chunk>): (r: seq<(int, int)>)
    ensures |r| == |cs| && forall i :: 0 <= i < |cs| ==> r[i] == (cs[i].idChunk, cs[i].idBioma)
  {
    seq(|cs|, i requires 0 <= i < |cs| => (cs[i].idChunk, cs[i].idBioma))
  }

  lemma {:induction false} PairsStep(cs: seq<Chunk>, i: nat, c: int)
    requires i < |cs|
    ensures Pairs(Seqs.Filter(cs[..i + 1], Near(c)))
      == Pairs(Seqs.Filter(cs[..i], Near(c)))
         + (if DistanceAdjacent(cs[i].idChunk, c) then [(cs[i].idChunk, cs[i].idBioma)] else [])
  {
    assert cs[..i + 1] == cs[..i] + [cs[i]];
    Seqs.FilterSnoc(cs[..i], cs[i], Near(c));
    var f := Seqs.Filter(cs[..i], Near(c));
    if DistanceAdjacent(cs[i].idChunk, c) {
      assert forall k :: 0 <= k < |f| ==> (f + [cs[i]])[k] == f[k];
    }
  }

  /** get_adjacent_chunks: the pairs of exactly the fetched rows whose id is 1
      or 32 away from `chunkId`, in fetched order; [] when fetching failed. */
  method GetAdjacentChunks(fetched: Result<seq<Chunk>>, chunkId: int) returns (r: seq<(int, int)>)
    ensures fetched.Err? ==> r == []
    ensures fetched.Ok? ==> r == Pairs(Seqs.Filter(fetched.value, Near(chunkId)))
  {
    if fetched.Err? {
      return [];
    }
    var all := fetched.value;
    r := [];
    for i := 0 to |all|
      invariant r == Pairs(Seqs.Filter(all[..i], Near(chunkId)))
    {
      var cid := all[i].idChunk;
      PairsStep(all, i, chunkId);
      if Abs(cid - chunkId) == 1 || Abs(cid - chunkId) == 32 {
        r := r + [(cid, all[i].idBioma)];
      }
    }
    assert all[..|all|] == all;
  }

  /** What the adjacency listing holds: every pair comes from a fetched row
      at distance 1 or 32 (so never the chunk itself), and every such row is
      listed. */
  lemma AdjacentListing(rows: seq<Chunk>, c: int)
    ensures forall i :: 0 <= i < |Pairs(Seqs.Filter(rows, Near(c)))| ==>
      (DistanceAdjacent(Pairs(Seqs.Filter(rows, Near(c)))[i].0, c)
       && Pairs(Seqs.Filter(rows, Near(c)))[i].0 != c
       && exists j :: 0 <= j < |rows| && Pairs(Seqs.Filter(rows, Near(c)))[i] == (rows[j].idChunk, rows[j].idBioma))
    ensures forall j :: 0 <= j < |rows| && DistanceAdjacent(rows[j].idChunk, c) ==>
      (rows[j].idChunk, rows[j].idBioma) in Pairs(Seqs.Filter(rows, Near(c)))
  {
    var f := Seqs.Filter(rows, Near(c));
    var p := Pairs(f);
    forall i | 0 <= i < |p|
      ensures DistanceAdjacent(p[i].0, c) && p[i].0 != c
      ensures exists j :: 0 <= j < |rows| && p[i] == (rows[j].idChunk, rows[j].idBioma)
    {
      assert Near(c)(f[i]);
      var j :| 0 <= j < |rows| && rows[j] == f[i];
    }
    forall j | 0 <= j < |rows| && DistanceAdjacent(rows[j].idChunk, c)
      ensures (rows[j].idChunk, rows[j].idBioma) in p
    {
      assert Near(c)(rows[j]);
      var k :| 0 <= k < |f| && f[k] == rows[j];
      assert p[k] == (rows[j].idChunk, rows[j].idBioma);
    }
  }

  /** The distance test is symmetric, and on ids 1..1000 it agrees with the
      neighbour list of the chunk model on the default width. */
  lemma DistanceAgreesWithChunkNeighbours(a: int, c: int)
    requires 1 <= a <= MaxChunks && 1 <= c <= MaxChunks
    ensures DistanceAdjacent(a, c) <==> DistanceAdjacent(c, a)
    ensures DistanceAdjacent(a, c) <==> a in AdjacentChunkIds(c, DefaultMapSize)
  {
  }

  // ---------------------------------------------------------------------------
  // get_desert_chunk

  /** The id of the desert among the predefined biomes. */
  const DesertBiomeId: int := 1

  /** A row of the map table as get_desert_chunk means to read it: its id and turn. */
  datatype MapRef = MapRef(idMapa: int, turno: Turno)

  /** Some map of turn t has this id. */
  predicate MapOfTurno(maps: seq<MapRef>, idMapa: int, t: Turno) {
    exists k :: 0 <= k < |maps| && maps[k].idMapa == idMapa && maps[k].turno == t
  }

  /** The rows of the chunk repository's find_by_bioma(1). */
  function DesertChunks(chunkRows: seq<Chunk>): seq<Chunk> {
    Seqs.Filter(chunkRows, (c: Chunk) => c.idBioma == DesertBiomeId)
  }

  /** The rows of the map repository's find_by_turno(t). */
  function MapsOfTurno(mapRows: seq<MapRef>, t: Turno): seq<MapRef> {
    Seqs.Filter(mapRows, (m: MapRef) => m.turno == t)
  }

  /** `any(m.id_mapa == chunk.id_mapa for m in maps)` over find_by_turno(t)
      holds exactly when some map of turn t carries the id. */
  lemma AnyMapOfTurno(mapRows: seq<MapRef>, t: Turno, idMapa: int)
    ensures (exists k :: 0 <= k < |MapsOfTurno(mapRows, t)| && MapsOfTurno(mapRows, t)[k].idMapa == idMapa)
      <==> MapOfTurno(mapRows, idMapa, t)
  {
    var maps := MapsOfTurno(mapRows, t);
    if exists k :: 0 <= k < |maps| && maps[k].idMapa == idMapa {
      var k :| 0 <= k < |maps| && maps[k].idMapa == idMapa;
      assert maps[k].turno == t;
      var j :| 0 <= j < |mapRows| && mapRows[j] == maps[k];
    }
    if MapOfTurno(mapRows, idMapa, t) {
      var j :| 0 <= j < |mapRows| && mapRows[j].idMapa == idMapa && mapRows[j].turno == t;
      assert mapRows[j] in maps;
      var k :| 0 <= k < |maps| && maps[k] == mapRows[j];
    }
  }

  /** get_desert_chunk: None for a turn string other than "Dia" and "Noite";
      otherwise the id of the first desert chunk lying on a map of that turn,
      or None when there is none. */
  function DesertChunk(chunkRows: seq<Chunk>, mapRows: seq<MapRef>, turno: string): (r: Option<int>)
    ensures ParseTurno(turno).None? ==> r.None?
    ensures ParseTurno(turno).Some? ==> (r.None? <==>
      forall i :: 0 <= i < |DesertChunks(chunkRows)| ==>
        !MapOfTurno(mapRows, DesertChunks(chunkRows)[i].idMapa, ParseTurno(turno).value))
    ensures r.Some? ==> exists i :: (0 <= i < |chunkRows| && chunkRows[i].idChunk == r.value
      && chunkRows[i].idBioma == DesertBiomeId && MapOfTurno(mapRows, chunkRows[i].idMapa, ParseTurno(turno).value))
  {
    match ParseTurno(turno)
    case None => None
    case Some(t) =>
      var desert := DesertChunks(chunkRows);
      match Seqs.FirstIndex(desert, (c: Chunk) => MapOfTurno(mapRows, c.idMapa, t))
      case None => None
      case Some(i) =>
        assert desert[i] in chunkRows;
        Some(desert[i].idChunk)
  }

  /** The search loop of get_desert_chunk, returning at the first hit. */
  method GetDesertChunk(chunkRows: seq<Chunk>, mapRows: seq<MapRef>, turno: string) returns (r: Option<int>)
    ensures r == DesertChunk(chunkRows, mapRows, turno)
  {
    var t := ParseTurno(turno);
    if t.None? {
      return None;
    }
    var desert := DesertChunks(chunkRows);
    var maps := MapsOfTurno(mapRows, t.value);
    for i := 0 to |desert|
      invariant forall j :: 0 <= j < i ==> !MapOfTurno(mapRows, desert[j].idMapa, t.value)
    {
      AnyMapOfTurno(mapRows, t.value, desert[i].idMapa);
      if exists k :: 0 <= k < |maps| && maps[k].idMapa == desert[i].idMapa {
        Seqs.FirstIndexAt(desert, (c: Chunk) => MapOfTurno(mapRows, c.idMapa, t.value), i);
        return Some(desert[i].idChunk);
      }
    }
    return None;
  }

  // ---------------------------------------------------------------------------
  // the service

  /** The location the interface writes on its local player object. */
  function LocalLocation(c: MapChunk): string {
    "Mapa " + MoveLocation(c)
  }

  /** A location ensure_player_location leaves alone: not empty and not "0". */
  predicate HasLocation(loc: string) {
    loc != "" && loc != "0"
  }

  /** The dictionary of get_player_statistics. */
  datatype PlayerStatistics = PlayerStatistics(total: nat, active: nat, averageLevel: int, averageHealth: int)

  class InterfaceService {
    const game: GameService
    /** The chunk table as find_by_bioma reads it. */
    const chunkRows: seq<Chunk>
    /** The map table as find_by_turno reads it. */
    const mapRows: seq<MapRef>

    constructor (game: GameService, chunkRows: seq<Chunk>, mapRows: seq<MapRef>)
      ensures this.game == game && this.chunkRows == chunkRows && this.mapRows == mapRows
    {
      this.game := game;
      this.chunkRows := chunkRows;
      this.mapRows := mapRows;
    }

    /** create_player: a name already taken gives None and saves nothing;
        otherwise the row saved by create_new_player, looked up by its new id.
        The health and strength arguments are not passed on, so the row always
        has the defaults 100/100 and 10 and the location "Spawn". */
    method CreatePlayer(nome: string, vidaMaxima: int, forca: int) returns (r: Option<PlayerData>)
      modifies game`players, game`nextId
      ensures NameTaken(old(game.players), nome) ==> r.None? && game.players == old(game.players)
      ensures !NameTaken(old(game.players), nome) ==>
        game.players == old(game.players) + [NewPlayerRow(old(game.nextId), nome, DefaultLocation)]
      ensures old(game.Valid()) ==> (game.Valid()
        && (r.Some? <==> !NameTaken(old(game.players), nome))
        && (r.Some? ==> r.value == NewPlayerRow(old(game.nextId), nome, DefaultLocation)))
    {
      var result := game.CreateNewPlayer(nome, DefaultLocation);
      if result.Ok? {
        var saved := result.value.player;
        if saved.idJogador.Some? {
          r := FindPlayerById(game.players, saved.idJogador.value);
          return;
        }
      }
      r := None;
    }

    /** move_player_to_chunk: the move is delegated under the player's id; on
        success the same object comes back with the interface's own location
        text, which is "Mapa " followed by the location saved in the row; on
        failure nothing changes. */
    method MovePlayerToChunk(player: Player, chunkId: int) returns (r: Option<Player>)
      modifies game`players, player`localizacao
      ensures r.Some? ==> r.value == player
      ensures r.Some? <==> (player.idJogador.Some?
        && FindPlayerById(old(game.players), player.idJogador.value).Some?
        && ChunkNumbered(game.chunks, chunkId).Some?)
      ensures r.Some? ==> player.localizacao == LocalLocation(ChunkNumbered(game.chunks, chunkId).value)
      ensures r.Some? ==> game.players == Relocated(old(game.players), player.idJogador.value,
        ChunkNumbered(game.chunks, chunkId).value)
      ensures r.None? ==> player.localizacao == old(player.localizacao) && game.players == old(game.players)
      ensures old(game.Valid()) ==> game.Valid()
      ensures old(game.Valid()) && r.Some? ==> (FindPlayerById(game.players, player.idJogador.value).Some?
        && player.localizacao == "Mapa " + FindPlayerById(game.players, player.idJogador.value).value.localizacao)
    {
      if player.idJogador.None? {
        return None;
      }
      var result := game.MovePlayerToChunk(player.idJogador.value, chunkId);
      if result.Err? {
        return None;
      }
      var c := result.value.chunk;
      player.localizacao := "Mapa " + c.idMapaNome + " - Chunk " + IntToString(c.numeroChunk);
      assert c == ChunkNumbered(game.chunks, chunkId).value;
      assert player.localizacao == LocalLocation(c);
      r := Some(player);
    }

    /** ensure_player_location: a player with a location is left alone and
        gets true; otherwise the player is moved to the day-turn desert chunk,
        and the answer is whether there was one (an id of 0 counts as none)
        and the move succeeded. */
    method EnsurePlayerLocation(player: Player) returns (ok: bool)
      modifies game`players, player`localizacao
      ensures HasLocation(old(player.localizacao)) ==>
        ok && player.localizacao == old(player.localizacao) && game.players == old(game.players)
      ensures !HasLocation(old(player.localizacao)) ==> (
        var d := DesertChunk(chunkRows, mapRows, "Dia");
        (ok <==> (d.Some? && d.value != 0 && player.idJogador.Some?
          && FindPlayerById(old(game.players), player.idJogador.value).Some?
          && ChunkNumbered(game.chunks, d.value).Some?))
        && (ok ==> (player.localizacao == LocalLocation(ChunkNumbered(game.chunks, d.value).value)
          && game.players == Relocated(old(game.players), player.idJogador.value,
               ChunkNumbered(game.chunks, d.value).value)))
        && (!ok ==> player.localizacao == old(player.localizacao) && game.players == old(game.players)))
      ensures old(game.Valid()) ==> game.Valid()
    {
      if !HasLocation(player.localizacao) {
        var desert := GetDesertChunk(chunkRows, mapRows, "Dia");
        if desert.Some? && desert.value != 0 {
          var updated := MovePlayerToChunk(player, desert.value);
          if updated.Some? {
            player.localizacao := updated.value.localizacao;
            return true;
          }
        }
        return false;
      }
      return true;
    }

    /** get_player_statistics: the total and active counts of the game
        statistics, with the constants 1 and 50 for the averages. */
    method GetPlayerStatistics() returns (s: PlayerStatistics)
      ensures s.total == |game.players|
      ensures s.active == Seqs.CountWhere(game.players, IsActive) && s.active <= s.total
      ensures s.averageLevel == 1 && s.averageHealth == 50
    {
      var stats := game.GetMapStatistics();
      s := PlayerStatistics(stats.totalJogadores, stats.jogadoresAtivos, 1, 50);
    }
  }
}
