/** The map of app/src/models/mapa_refactored.py: the same queries as
    MapaModel, but the chunk rows come from an injected chunk repository, and
    every chunk-reading query raises "Chunk repository não foi configurado"
    until one has been set. The repository is modelled by the rows it holds;
    its find_by_mapa is MapaModel.ChunksOfMap over them. */
module MapaRefactoredModel {
  import opened Common
  import opened Counting
  import opened MapaModel

  const NotConfigured: string := "Chunk repository não foi configurado"

  class Mapa {
    const nome: string
    const turno: Turno
    /** The injected repository; None until set_chunk_repository is called. */
    var chunkRepository: Option<seq<MapChunk>>

    /** The dataclass constructor after __post_init__ has converted the turn;
        see NewMapaRefactored for the conversion. The repository starts unset. */
    constructor (nome: string, turno: Turno)
      ensures this.nome == nome && this.turno == turno && chunkRepository == None
    {
      this.nome := nome;
      this.turno := turno;
      chunkRepository := None;
    }

    /** set_chunk_repository: only the repository changes. */
    method SetChunkRepository(rows: seq<MapChunk>)
      modifies this`chunkRepository
      ensures chunkRepository == Some(rows)
    {
      chunkRepository := Some(rows);
    }

    predicate IsDayMap()
      reads this
    {
      turno == Dia
    }

    predicate IsNightMap()
      reads this
    {
      turno == Noite
    }

    /** The value of this map as the key MapaModel compares and hashes. */
    function Key(): MapaModel.Mapa
      reads this
    {
      MapaModel.Mapa(nome, turno)
    }

    /** `__eq__` against another map: same name and same turn. */
    predicate Equals(o: Mapa)
      reads this, o
    {
      nome == o.nome && turno == o.turno
    }

    /** get_chunks: the repository's rows for this map's name and turn value, in order. */
    function GetChunks(): (r: Result<seq<MapChunk>>)
      reads this
      ensures r.Err? <==> chunkRepository.None?
      ensures r.Err? ==> r.error == NotConfigured
      ensures r.Ok? ==> forall i :: 0 <= i < |r.value| ==>
        OfMap(r.value[i], nome, TurnoValue(turno)) && r.value[i] in chunkRepository.value
      ensures r.Ok? ==> forall i :: 0 <= i < |chunkRepository.value| ==>
        (chunkRepository.value[i] in r.value <==> OfMap(chunkRepository.value[i], nome, TurnoValue(turno)))
    {
      match chunkRepository
      case None => Err(NotConfigured)
      case Some(rows) => Ok(ChunksOfMap(rows, nome, TurnoValue(turno)))
    }

    /** get_chunks_by_bioma: the case-insensitive biome filter over this map's rows, or the error. */
    function GetChunksByBioma(bioma: string): (r: Result<seq<MapChunk>>)
      reads this
      ensures r.Err? <==> chunkRepository.None?
      ensures r.Err? ==> r.error == NotConfigured
      ensures r.Ok? ==> forall i :: 0 <= i < |r.value| ==>
        EqualsIgnoreCase(r.value[i].idBioma, bioma) && r.value[i] in GetChunks().value
      ensures r.Ok? ==> forall i :: 0 <= i < |GetChunks().value| ==>
        (GetChunks().value[i] in r.value <==> EqualsIgnoreCase(GetChunks().value[i].idBioma, bioma))
    {
      match GetChunks()
      case Err(e) => Err(e)
      case Ok(chunks) => Ok(ChunksByBioma(chunks, bioma))
    }

    /** get_bioma_distribution: the error, or {} for no rows and otherwise
        positive counts adding up to the number of this map's rows. */
    method GetBiomaDistribution() returns (r: Result<map<string, nat>>)
      ensures r.Err? <==> chunkRepository.None?
      ensures r.Err? ==> r.error == NotConfigured
      ensures r.Ok? ==> (r.value == Histogram(Biomas(GetChunks().value))
        && (r.value == map[] <==> |GetChunks().value| == 0)
        && MapSum(r.value) == |GetChunks().value|)
    {
      var chunks := GetChunks();
      if chunks.Err? {
        return Err(chunks.error);
      }
      var d := BiomaDistribution(chunks.value);
      r := Ok(d);
    }

    /** get_display_info: the error, or the dictionary MapaModel.GetDisplayInfo
        builds over this map's rows, with the distribution of get_bioma_distribution. */
    method GetDisplayInfo() returns (r: Result<MapDisplayInfo>)
      ensures r.Err? <==> chunkRepository.None?
      ensures r.Err? ==> r.error == NotConfigured
      ensures r.Ok? ==> (r.value.nome == nome && r.value.turno == TurnoValue(turno)
        && (r.value.tipo == "Dia" <==> IsDayMap())
        && r.value.tipo == (if IsDayMap() then "Dia" else "Noite")
        && (r.value.totalChunks.Some? <==> |GetChunks().value| > 0)
        && (r.value.distribuicao.Some? <==> |GetChunks().value| > 0)
        && (r.value.totalChunks.Some? ==> (r.value.totalChunks.value == |GetChunks().value|
            && r.value.distribuicao.value == Histogram(Biomas(GetChunks().value))
            && MapSum(r.value.distribuicao.value) == r.value.totalChunks.value)))
    {
      var chunks := GetChunks();
      if chunks.Err? {
        return Err(chunks.error);
      }
      var info := MapaModel.GetDisplayInfo(Key(), chunks.value);
      r := Ok(info);
    }

    /** get_chunk_by_id: the error, or the first of this map's rows with that number, or None. */
    method GetChunkById(numero: int) returns (r: Result<Option<MapChunk>>)
      ensures r.Err? <==> chunkRepository.None?
      ensures r.Err? ==> r.error == NotConfigured
      ensures r.Ok? ==> r.value == ChunkNumbered(GetChunks().value, numero)
    {
      var chunks := GetChunks();
      if chunks.Err? {
        return Err(chunks.error);
      }
      var c := FindChunkByNumber(chunks.value, numero);
      r := Ok(c);
    }
  }

  /** Two maps are equal exactly when their keys are, which is exactly when
      the tuples `__hash__` hashes agree; equality does not depend on the
      injected repository. Every map is a day map exactly when it is not a
      night map. */
  lemma RefactoredMapaIdentity(m: Mapa, o: Mapa)
    ensures m.Equals(o) <==> m.Key() == o.Key()
    ensures m.Equals(o) <==> MapaHashKey(m.Key()) == MapaHashKey(o.Key())
    ensures m.Equals(o) <==> o.Equals(m)
    ensures m.IsDayMap() <==> !m.IsNightMap()
  {
    MapaIdentity(m.Key(), o.Key());
    DayNightExclusive(m.Key());
  }

  /** The refactored constructor: the turn argument is converted as in
      MapaModel.NewMapa, and an invalid string means no map. */
  method NewMapaRefactored(nome: string, turno: TurnoArg) returns (r: Result<Mapa>)
    ensures r.Err? <==> ConvertTurno(turno).Err?
    ensures r.Err? ==> r.error == ConvertTurno(turno).error
    ensures r.Ok? ==> (fresh(r.value) && r.value.nome == nome && r.value.turno == ConvertTurno(turno).value
      && r.value.chunkRepository.None?)
  {
    var t := ConvertTurno(turno);
    if t.Err? {
      return Err(t.error);
    }
    var m := new Mapa(nome, t.value);
    r := Ok(m);
  }
}
