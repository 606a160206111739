/** The business layer GameService of app/src/services/game_service.py. Its
    three repositories are modelled as the rows they hold: the maps, the chunk
    rows and the character rows, plus the counter the database uses to number
    new characters. A character row is kept by value, as the database keeps it;
    reading one gives a copy. */
module GameServiceModel {
  import opened Common
  import Seqs
  import opened Counting
  import opened MapaModel
  import opened PlayerModel

  const MapNotFound: string := "Mapa não encontrado"
  const PlayerNotFound: string := "Jogador não encontrado"
  const ChunkNotFound: string := "Chunk não encontrado"

  /** The default `localizacao` of create_new_player. */
  const DefaultLocation: string := "Spawn"

  // ---------------------------------------------------------------------------
  // the character rows

  predicate HasId(p: PlayerData, id: int) {
    p.idJogador == Some(id)
  }

  /** Where the repository's find_by_id finds the row with this id. */
  function PlayerIndex(ps: seq<PlayerData>, id: int): Option<nat> {
    Seqs.FirstIndex(ps, (p: PlayerData) => HasId(p, id))
  }

  /** The repository's find_by_id: the row with this id, or None. */
  function FindPlayerById(ps: seq<PlayerData>, id: int): (r: Option<PlayerData>)
    ensures r.None? <==> forall i :: 0 <= i < |ps| ==> !HasId(ps[i], id)
    ensures r.Some? ==> HasId(r.value, id) && r.value in ps
  {
    match PlayerIndex(ps, id)
    case None => None
    case Some(i) => Some(ps[i])
  }

  /** The repository's find_by_name finds a row: some row has exactly this name. */
  predicate NameTaken(ps: seq<PlayerData>, nome: string) {
    exists i :: 0 <= i < |ps| && ps[i].nome == nome
  }

  /** The row create_new_player inserts, numbered by the database. */
  function NewPlayerRow(id: int, nome: string, localizacao: string): PlayerData {
    PlayerData(Some(id), nome, 100, 100, 10, localizacao, 1, 0)
  }

  /** What move_player_to_chunk writes into `localizacao`. */
  function MoveLocation(c: MapChunk): string {
    c.idMapaNome + " - Chunk " + IntToString(c.numeroChunk)
  }

  /** The rows after the character with this id has moved to chunk c: that
      row's location becomes MoveLocation(c) and nothing else changes. */
  function Relocated(ps: seq<PlayerData>, id: int, c: MapChunk): (r: seq<PlayerData>)
    requires FindPlayerById(ps, id).Some?
    ensures |r| == |ps|
  {
    var i := PlayerIndex(ps, id).value;
    ps[i := ps[i].(localizacao := MoveLocation(c))]
  }

  // ---------------------------------------------------------------------------
  // results

  /** The success dictionary of get_map_info. */
  datatype MapInfo = MapInfo(
    nome: string, turno: string, totalChunks: nat,
    distribuicaoBiomas: map<string, nat>, chunks: seq<int>)

  /** The success dictionary of move_player_to_chunk. */
  datatype MoveResult = MoveResult(
    message: string, playerId: Option<int>, nome: string, localizacao: string, chunk: MapChunk)

  /** One entry of get_players_in_bioma. */
  datatype PlayerInBioma = PlayerInBioma(
    id: Option<int>, nome: string, localizacao: string, vidaAtual: int, nivel: int)

  function Summary(p: PlayerData): PlayerInBioma {
    PlayerInBioma(p.idJogador, p.nome, p.localizacao, p.vidaAtual, p.nivel)
  }

  function Summaries(ps: seq<PlayerData>): (r: seq<PlayerInBioma>)
    ensures |r| == |ps| && forall i :: 0 <= i < |ps| ==> r[i] == Summary(ps[i])
  {
    seq(|ps|, i requires 0 <= i < |ps| => Summary(ps[i]))
  }

  lemma SummariesSnoc(ps: seq<PlayerData>, p: PlayerData)
    ensures Summaries(ps + [p]) == Summaries(ps) + [Summary(p)]
  {
    assert forall i :: 0 <= i < |ps| ==> (ps + [p])[i] == ps[i];
  }

  /** The dictionary of get_map_statistics. */
  datatype MapStatistics = MapStatistics(
    totalMapas: nat, totalChunks: nat, totalJogadores: nat,
    jogadoresAtivos: nat, jogadoresMortos: int,
    chunksPorTurno: map<string, nat>, mapas: seq<(string, string)>)

  /** The success dictionary of create_new_player. */
  datatype Created = Created(message: string, player: PlayerData)

  // ---------------------------------------------------------------------------
  // chunk matching in get_players_in_bioma

  /** `f"Chunk {numero_chunk}"` */
  function ChunkTag(n: int): string {
    "Chunk " + IntToString(n)
  }

  /** The rows of the chunk repository's find_by_bioma: exact biome match. */
  function BiomaChunks(chunks: seq<MapChunk>, biomaId: string): seq<MapChunk> {
    Seqs.Filter(chunks, (c: MapChunk) => c.idBioma == biomaId)
  }

  /** The test as written: some chunk's tag occurs anywhere in the location. */
  predicate InAnyChunk(loc: string, cs: seq<MapChunk>) {
    exists j :: 0 <= j < |cs| && Contains(loc, ChunkTag(cs[j].numeroChunk))
  }

  function InBioma(cs: seq<MapChunk>): PlayerData -> bool {
    (p: PlayerData) => InAnyChunk(p.localizacao, cs)
  }

  /** The row a player in chunk 12 of any map carries is matched by the tag of chunk 1:
      a player in chunk 12 is reported in the biome of chunk 1. */
  lemma SubstringMatchesLongerNumber()
    ensures ChunkTag(1) == "Chunk 1"
    ensures MoveLocation(MapChunk(12, "Floresta", "Mapa_Principal", "Dia")) == "Mapa_Principal - Chunk 12"
    ensures InAnyChunk("Mapa_Principal - Chunk 12", [MapChunk(1, "Deserto", "Mapa_Principal", "Dia")])
  {
    var loc := "Mapa_Principal - Chunk 12";
    var cs := [MapChunk(1, "Deserto", "Mapa_Principal", "Dia")];
    assert NatToString(1) == "1";
    assert NatToString(12) == NatToString(1) + [DigitChar(2)];
    assert loc[17..17 + |ChunkTag(1)|] == ChunkTag(1);
    ContainsAt(loc, ChunkTag(1), 17);
    assert Contains(loc, ChunkTag(cs[0].numeroChunk));
  }

  /** The evidently intended test: the location ends with the chunk's tag. */
  predicate InAnyChunkExact(loc: string, cs: seq<MapChunk>) {
    exists j :: 0 <= j < |cs| && EndsWith(loc, ChunkTag(cs[j].numeroChunk))
  }

  function InBiomaExact(cs: seq<MapChunk>): PlayerData -> bool {
    (p: PlayerData) => InAnyChunkExact(p.localizacao, cs)
  }

  /** Two space-terminated prefixes followed by digits: when one such string
      ends with the other, their digit runs are the same. A shorter run would
      put the space against a digit, a longer one a digit against the space. */
  lemma DigitRunsAgree(a: string, s: string, b: string, t: string)
    requires |a| >= 1 && a[|a| - 1] == ' ' && |b| >= 1 && b[|b| - 1] == ' '
    requires IsDigits(s) && IsDigits(t)
    requires EndsWith(a + s, b + t)
    ensures s == t
  {
    var whole := a + s;
    var tail := b + t;
    var off := |whole| - |tail|;
    assert whole[off..] == tail;
    // the space ending b falls inside a, since every character of s is a digit
    assert whole[off + |b| - 1] == ' ';
    assert off + |b| - 1 < |a|;
    // and the space ending a falls inside b, since every character of t is a digit
    assert tail[|a| - 1 - off] == ' ';
    assert |a| - 1 - off < |b|;
    assert |t| == |s|;
    assert whole[|a|..] == s;
    assert tail[|b|..] == t;
    assert whole[off..][|b|..] == whole[|a|..];
  }

  /** For a location of the form move_player_to_chunk writes, the suffix test
      recognises exactly the chunk the player was moved to. */
  lemma ExactTagMatch(mapaNome: string, m: nat, n: nat)
    ensures EndsWith(mapaNome + " - Chunk " + NatToString(m), ChunkTag(n)) <==> m == n
  {
    var prefix := mapaNome + " - Chunk ";
    var loc := prefix + NatToString(m);
    assert ChunkTag(n) == "Chunk " + NatToString(n);
    if EndsWith(loc, ChunkTag(n)) {
      DigitRunsAgree(prefix, NatToString(m), "Chunk ", NatToString(n));
      NatToStringInjective(m, n);
    }
    if m == n {
      assert loc == (mapaNome + " - ") + ("Chunk " + NatToString(m));
      assert loc[|loc| - |ChunkTag(n)|..] == ChunkTag(n);
    }
  }

  /** get_players_in_bioma with the suffix test: the corrected listing. */
  function PlayersInBiomaExact(players: seq<PlayerData>, chunks: seq<MapChunk>, biomaId: string): seq<PlayerInBioma> {
    Summaries(Seqs.Filter(players, InBiomaExact(BiomaChunks(chunks, biomaId))))
  }

  /** A player moved to chunk m of map x is listed for a biome exactly when
      chunk m is one of that biome's chunks. */
  lemma ExactListingIsPrecise(p: PlayerData, chunks: seq<MapChunk>, biomaId: string, x: string, m: nat)
    requires p.localizacao == x + " - Chunk " + NatToString(m)
    requires forall i :: 0 <= i < |chunks| ==> chunks[i].numeroChunk >= 0
    ensures InBiomaExact(BiomaChunks(chunks, biomaId))(p) <==>
      exists j :: 0 <= j < |BiomaChunks(chunks, biomaId)| && BiomaChunks(chunks, biomaId)[j].numeroChunk == m
  {
    var cs := BiomaChunks(chunks, biomaId);
    forall j | 0 <= j < |cs|
      ensures EndsWith(p.localizacao, ChunkTag(cs[j].numeroChunk)) <==> cs[j].numeroChunk == m
    {
      assert cs[j] in chunks;
      ExactTagMatch(x, m, cs[j].numeroChunk);
    }
  }

  // ---------------------------------------------------------------------------
  // the service

  const IsActive: PlayerData -> bool := (p: PlayerData) => p.vidaAtual > 0
  const IsDead: PlayerData -> bool := (p: PlayerData) => p.vidaAtual <= 0

  /** The turn value of each chunk row, in order: the keys chunks_por_turno counts. */
  function Turnos(chunks: seq<MapChunk>): (r: seq<string>)
    ensures |r| == |chunks| && forall i :: 0 <= i < |r| ==> r[i] == chunks[i].idMapaTurno
  {
    seq(|chunks|, i requires 0 <= i < |chunks| => chunks[i].idMapaTurno)
  }

  /** The inner loop of get_players_in_bioma: try the chunks in order and, at
      the first whose tag occurs in the location, list the character and stop. */
  method ListIfInChunks(r0: seq<PlayerInBioma>, player: PlayerData, cs: seq<MapChunk>) returns (r: seq<PlayerInBioma>)
    ensures r == r0 + (if InAnyChunk(player.localizacao, cs) then [Summary(player)] else [])
  {
    r := r0;
    for k := 0 to |cs|
      invariant r == r0
      invariant forall j :: 0 <= j < k ==> !Contains(player.localizacao, ChunkTag(cs[j].numeroChunk))
    {
      if Contains(player.localizacao, ChunkTag(cs[k].numeroChunk)) {
        r := r + [Summary(player)];
        assert InAnyChunk(player.localizacao, cs);
        break;
      }
    }
  }

  /** One more character examined: its summary is appended exactly when it is in the chunks. */
  lemma ListingStep(ps: seq<PlayerData>, i: nat, cs: seq<MapChunk>)
    requires i < |ps|
    ensures Summaries(Seqs.Filter(ps[..i + 1], InBioma(cs)))
      == Summaries(Seqs.Filter(ps[..i], InBioma(cs)))
         + (if InAnyChunk(ps[i].localizacao, cs) then [Summary(ps[i])] else [])
  {
    assert ps[..i + 1] == ps[..i] + [ps[i]];
    Seqs.FilterSnoc(ps[..i], ps[i], InBioma(cs));
    SummariesSnoc(Seqs.Filter(ps[..i], InBioma(cs)), ps[i]);
  }

  class GameService {
    var mapas: seq<Mapa>
    var chunks: seq<MapChunk>
    var players: seq<PlayerData>
    /** The next number the database hands out to an inserted character. */
    var nextId: int

    /** Every stored character has a distinct id the database handed out, and
        its health is at most its maximum, as `Player.__post_init__` leaves
        every row the repository reads and saves back. */
    predicate Valid()
      reads this
    {
      nextId >= 1
      && (forall i :: 0 <= i < |players| ==> players[i].idJogador.Some? && 1 <= players[i].idJogador.value < nextId)
      && (forall i, j :: 0 <= i < j < |players| ==> players[i].idJogador != players[j].idJogador)
      && (forall i :: 0 <= i < |players| ==> players[i].vidaAtual <= players[i].vidaMaxima)
    }

    constructor (mapas: seq<Mapa>, chunks: seq<MapChunk>)
      ensures this.mapas == mapas && this.chunks == chunks && players == [] && nextId == 1
      ensures Valid()
    {
      this.mapas := mapas;
      this.chunks := chunks;
      players := [];
      nextId := 1;
    }

    /** get_map_info: "Mapa não encontrado" when the map is not stored;
        otherwise the map's chunk count, a distribution adding up to it, and
        the numbers of its first ten chunks in order. */
    method GetMapInfo(mapaNome: string, turno: Turno) returns (r: Result<MapInfo>)
      ensures r.Err? <==> Mapa(mapaNome, turno) !in mapas
      ensures r.Err? ==> r.error == MapNotFound
      ensures r.Ok? ==> (
        var cs := ChunksOfMap(chunks, mapaNome, TurnoValue(turno));
        r.value.nome == mapaNome && r.value.turno == TurnoValue(turno)
        && r.value.totalChunks == |cs|
        && r.value.distribuicaoBiomas == Histogram(Biomas(cs))
        && MapSum(r.value.distribuicaoBiomas) == r.value.totalChunks
        && |r.value.chunks| == (if |cs| < 10 then |cs| else 10)
        && forall i :: 0 <= i < |r.value.chunks| ==> r.value.chunks[i] == cs[i].numeroChunk)
    {
      if Mapa(mapaNome, turno) !in mapas {
        return Err(MapNotFound);
      }
      var cs := ChunksOfMap(chunks, mapaNome, TurnoValue(turno));
      var distribution := Tally(Biomas(cs));
      HistogramTotal(Biomas(cs));
      var k := if |cs| < 10 then |cs| else 10;
      var firsts := seq(k, i requires 0 <= i < k => cs[i].numeroChunk);
      r := Ok(MapInfo(mapaNome, TurnoValue(turno), |cs|, distribution, firsts));
    }

    /** move_player_to_chunk: "Jogador não encontrado", then "Chunk não
        encontrado", each with nothing saved; otherwise the character's row
        gets the chunk's location and nothing else changes. */
    method MovePlayerToChunk(playerId: int, chunkId: int) returns (r: Result<MoveResult>)
      modifies this`players
      ensures FindPlayerById(old(players), playerId).None? ==>
        r == Err(PlayerNotFound) && players == old(players)
      ensures FindPlayerById(old(players), playerId).Some? && ChunkNumbered(chunks, chunkId).None? ==>
        r == Err(ChunkNotFound) && players == old(players)
      ensures FindPlayerById(old(players), playerId).Some? && ChunkNumbered(chunks, chunkId).Some? ==> (
        var i := PlayerIndex(old(players), playerId).value;
        var c := ChunkNumbered(chunks, chunkId).value;
        var moved := old(players)[i].(localizacao := MoveLocation(c));
        players == old(players)[i := moved]
        && players == Relocated(old(players), playerId, c)
        && r == Ok(MoveResult("Jogador " + moved.nome + " movido para " + MoveLocation(c),
                              Some(playerId), moved.nome, MoveLocation(c), c)))
      ensures old(Valid()) ==> Valid()
      ensures old(Valid()) && r.Ok? ==> (FindPlayerById(players, playerId).Some?
        && FindPlayerById(players, playerId).value.localizacao == r.value.localizacao)
    {
      var pi := PlayerIndex(players, playerId);
      if pi.None? {
        return Err(PlayerNotFound);
      }
      var chunk := FindChunkByNumber(chunks, chunkId);
      if chunk.None? {
        return Err(ChunkNotFound);
      }
      var c := chunk.value;
      var player := players[pi.value];
      player := player.(localizacao := MoveLocation(c));
      players := players[pi.value := player];
      r := Ok(MoveResult("Jogador " + player.nome + " movido para " + player.localizacao,
                         player.idJogador, player.nome, player.localizacao, c));
      if old(Valid()) {
        assert forall j :: 0 <= j < |players| && j != pi.value ==> players[j] == old(players)[j];
        assert HasId(players[pi.value], playerId);
        Seqs.FirstIndexAt(players, (p: PlayerData) => HasId(p, playerId), pi.value);
      }
    }

    /** get_players_in_bioma: walk the characters and, for each, the chunks of
        the biome, listing the character at the first chunk whose tag occurs in
        its location. Each character is listed at most once, in stored order. */
    method GetPlayersInBioma(biomaId: string) returns (r: seq<PlayerInBioma>)
      ensures r == Summaries(Seqs.Filter(players, InBioma(BiomaChunks(chunks, biomaId))))
    {
      var cs := BiomaChunks(chunks, biomaId);
      r := [];
      for i := 0 to |players|
        invariant r == Summaries(Seqs.Filter(players[..i], InBioma(cs)))
      {
        var player := players[i];
        r := ListIfInChunks(r, player, cs);
        ListingStep(players, i, cs);
      }
      assert players[..|players|] == players;
    }

    /** get_map_statistics: the table sizes; living characters counted as
        active and the rest as dead; chunks counted per turn, adding up to the
        chunk total; and each map's name with its turn value. */
    method GetMapStatistics() returns (s: MapStatistics)
      ensures s.totalMapas == |mapas| && s.totalChunks == |chunks| && s.totalJogadores == |players|
      ensures s.jogadoresAtivos == Seqs.CountWhere(players, IsActive)
      ensures s.jogadoresMortos == Seqs.CountWhere(players, IsDead)
      ensures s.jogadoresAtivos + s.jogadoresMortos == s.totalJogadores
      ensures s.chunksPorTurno == Histogram(Turnos(chunks)) && MapSum(s.chunksPorTurno) == s.totalChunks
      ensures |s.mapas| == |mapas|
        && forall i :: 0 <= i < |mapas| ==> s.mapas[i] == (mapas[i].nome, TurnoValue(mapas[i].turno))
    {
      var active := |Seqs.Filter(players, IsActive)|;
      Seqs.FilterComplement(players, IsActive, IsDead);
      var porTurno := Tally(Turnos(chunks));
      HistogramTotal(Turnos(chunks));
      var ms := mapas;
      var lista := seq(|ms|, i requires 0 <= i < |ms| => (ms[i].nome, TurnoValue(ms[i].turno)));
      s := MapStatistics(|mapas|, |chunks|, |players|, active, |players| - active, porTurno, lista);
    }

    /** create_new_player: an error naming the character, and nothing saved,
        when the name is taken; otherwise a fresh row with 100/100 health,
        strength 10, level 1 and no experience is saved under the next id. */
    method CreateNewPlayer(nome: string, localizacao: string) returns (r: Result<Created>)
      modifies this`players, this`nextId
      ensures NameTaken(old(players), nome) ==>
        r == Err("Já existe um jogador com o nome '" + nome + "'")
        && players == old(players) && nextId == old(nextId)
      ensures !NameTaken(old(players), nome) ==>
        r == Ok(Created("Jogador '" + nome + "' criado com sucesso", NewPlayerRow(old(nextId), nome, localizacao)))
        && players == old(players) + [NewPlayerRow(old(nextId), nome, localizacao)]
        && nextId == old(nextId) + 1
      ensures old(Valid()) ==> Valid()
      ensures old(Valid()) && r.Ok? ==> FindPlayerById(players, old(nextId)) == Some(r.value.player)
    {
      if NameTaken(players, nome) {
        return Err("Já existe um jogador com o nome '" + nome + "'");
      }
      var row := NewPlayerRow(nextId, nome, localizacao);
      players := players + [row];
      nextId := nextId + 1;
      r := Ok(Created("Jogador '" + nome + "' criado com sucesso", row));
      if old(Valid()) {
        assert forall j :: 0 <= j < |old(players)| ==> players[j] == old(players)[j];
        Seqs.FirstIndexAt(players, (p: PlayerData) => HasId(p, old(nextId)), |old(players)|);
      }
    }
  }
}
