/** The map of app/src/models/mapa.py: a (name, turn) pair that is the
    composite primary key, and the queries it answers over its chunk rows.
    The rows that get_chunks loads from the database are a parameter here. */
module MapaModel {
  import opened Common
  import Seqs
  import opened Counting

  // ---------------------------------------------------------------------------
  // the turn

  /** TurnoType: DIA is "Dia", NOITE is "Noite". */
  datatype Turno = Dia | Noite

  function TurnoValue(t: Turno): string {
    match t
    case Dia => "Dia"
    case Noite => "Noite"
  }

  /** `TurnoType(s)`: lookup by value; None for any other string. */
  function ParseTurno(s: string): (r: Option<Turno>)
    ensures r.Some? <==> s == "Dia" || s == "Noite"
  {
    if s == "Dia" then Some(Dia) else if s == "Noite" then Some(Noite) else None
  }

  /** Parsing a turn's value gives the turn back, and a parsed string is the value of what it parsed to. */
  lemma TurnoRoundTrip(t: Turno, s: string)
    ensures ParseTurno(TurnoValue(t)) == Some(t)
    ensures ParseTurno(s).Some? ==> TurnoValue(ParseTurno(s).value) == s
  {
  }

  /** The value of the `turno` field as passed to the constructor: the enum or a string. */
  datatype TurnoArg = FromEnum(t: Turno) | FromStr(s: string)

  /** The ValueError message of an enum lookup by value: `"%r is not a valid TurnoType"`. */
  function InvalidTurno(s: string): string {
    PyRepr(s) + " is not a valid TurnoType"
  }

  /** __post_init__: a string is converted to the enum; the enum lookup raises on any other string. */
  function ConvertTurno(arg: TurnoArg): (r: Result<Turno>)
    ensures arg.FromEnum? ==> r == Ok(arg.t)
    ensures arg.FromStr? ==> (r.Ok? <==> arg.s == "Dia" || arg.s == "Noite")
    ensures arg.FromStr? && r.Ok? ==> TurnoValue(r.value) == arg.s
    ensures r.Err? ==> r.error == InvalidTurno(arg.s)
  {
    match arg
    case FromEnum(t) => Ok(t)
    case FromStr(s) =>
      match ParseTurno(s)
      case Some(t) => Ok(t)
      case None => Err(InvalidTurno(s))
  }

  /** The rejection message names the rejected string: two strings refused
      with the same message are the same string. */
  lemma InvalidTurnoNamesArgument(a: string, b: string)
    requires ConvertTurno(FromStr(a)).Err? && ConvertTurno(FromStr(b)).Err?
    requires ConvertTurno(FromStr(a)).error == ConvertTurno(FromStr(b)).error
    ensures a == b
  {
    var m, tail := InvalidTurno(a), " is not a valid TurnoType";
    assert m == PyRepr(a) + tail && m == PyRepr(b) + tail;
    assert PyRepr(a) == m[..|m| - |tail|] == PyRepr(b);
    ReprInjective(a, b);
  }

  // ---------------------------------------------------------------------------
  // chunk rows as the map code reads them

  /** A chunk row: its number, biome name, and the (name, turn value) key of its map. */
  datatype MapChunk = MapChunk(numeroChunk: int, idBioma: string, idMapaNome: string, idMapaTurno: string)

  /** The map `Mapa(nome, turno)`. */
  datatype Mapa = Mapa(nome: string, turno: Turno)

  /** Building a map: the turn argument is converted, and an invalid string means no map. */
  function NewMapa(nome: string, turno: TurnoArg): (r: Result<Mapa>)
    ensures r.Ok? <==> ConvertTurno(turno).Ok?
    ensures r.Ok? ==> r.value.nome == nome && r.value.turno == ConvertTurno(turno).value
    ensures turno.FromStr? && r.Ok? ==> TurnoValue(r.value.turno) == turno.s
  {
    match ConvertTurno(turno)
    case Ok(t) => Ok(Mapa(nome, t))
    case Err(e) => Err(e)
  }

  predicate IsDayMap(m: Mapa) {
    m.turno == Dia
  }

  predicate IsNightMap(m: Mapa) {
    m.turno == Noite
  }

  /** Every map is exactly one of a day map and a night map. */
  lemma DayNightExclusive(m: Mapa)
    ensures IsDayMap(m) <==> !IsNightMap(m)
  {
  }

  /** `__eq__`: same name and same turn. */
  predicate SameMapa(a: Mapa, b: Mapa) {
    a.nome == b.nome && a.turno == b.turno
  }

  /** The tuple `__hash__` hashes. */
  function MapaHashKey(m: Mapa): (string, Turno) {
    (m.nome, m.turno)
  }

  /** Equality coincides with the hash key, and for these two-field values with value equality. */
  lemma MapaIdentity(a: Mapa, b: Mapa)
    ensures SameMapa(a, b) <==> MapaHashKey(a) == MapaHashKey(b)
    ensures SameMapa(a, b) <==> a == b
  {
  }

  // ---------------------------------------------------------------------------
  // queries over the map's chunks

  /** A chunk row belongs to the map with this name and turn value. */
  predicate OfMap(c: MapChunk, nome: string, turnoValue: string) {
    c.idMapaNome == nome && c.idMapaTurno == turnoValue
  }

  /** The rows belonging to one map, in the given order: the set_chunks filter,
      and what a chunk repository's find_by_mapa returns. */
  function ChunksOfMap(chunks: seq<MapChunk>, nome: string, turnoValue: string): (r: seq<MapChunk>)
    ensures forall i :: 0 <= i < |r| ==> OfMap(r[i], nome, turnoValue) && r[i] in chunks
    ensures forall i :: 0 <= i < |chunks| ==> (chunks[i] in r <==> OfMap(chunks[i], nome, turnoValue))
  {
    Seqs.Filter(chunks, (c: MapChunk) => OfMap(c, nome, turnoValue))
  }

  /** set_chunks keeps exactly this map's rows, in order, each as often as it was given. */
  lemma SetChunksFilter(m: Mapa, chunks: seq<MapChunk>, c: MapChunk)
    ensures Seqs.Subsequence(ChunksOfMap(chunks, m.nome, TurnoValue(m.turno)), chunks)
    ensures multiset(ChunksOfMap(chunks, m.nome, TurnoValue(m.turno)))[c]
      == if c.idMapaNome == m.nome && c.idMapaTurno == TurnoValue(m.turno) then multiset(chunks)[c] else 0
  {
    Seqs.FilterOrder(chunks, (c: MapChunk) => OfMap(c, m.nome, TurnoValue(m.turno)));
    Seqs.FilterMultiplicity(chunks, (c: MapChunk) => OfMap(c, m.nome, TurnoValue(m.turno)), c);
  }

  // ---------------------------------------------------------------------------
  // the memoize cache of get_chunks, and set_chunks

  /** The dictionary a memoize wrapper keeps in its closure: call key to stored result. */
  type ChunkCache = map<string, seq<MapChunk>>

  /** How the map's __repr__ prints the turn: the enum member's str(). */
  function TurnoMemberName(t: Turno): string {
    match t
    case Dia => "TurnoType.DIA"
    case Noite => "TurnoType.NOITE"
  }

  /** The key a call `m.get_chunks()` is filed under, `str((self,)) + str(sorted({}.items()))`,
      with the map printed by its __repr__. */
  function CacheKey(m: Mapa): string {
    "(Mapa(nome='" + m.nome + "', turno=" + TurnoMemberName(m.turno) + "),)" + "[]"
  }

  /** The day map and the night map of one name are filed under different keys. */
  lemma CacheKeySeparatesTurns(nome: string)
    ensures CacheKey(Mapa(nome, Dia)) != CacheKey(Mapa(nome, Noite))
  {
    var k := |"(Mapa(nome='" + nome + "', turno=TurnoType."|;
    assert CacheKey(Mapa(nome, Dia))[k] == 'D';
    assert CacheKey(Mapa(nome, Noite))[k] == 'N';
  }

  /** get_chunks through memoize: a stored result comes back as stored and the
      database rows are not read; otherwise the loaded rows are stored under
      the key and returned. Other keys are never touched. */
  function MemoGetChunks(cache: ChunkCache, m: Mapa, loaded: seq<MapChunk>): (r: (seq<MapChunk>, ChunkCache))
    ensures CacheKey(m) in r.1 && r.0 == r.1[CacheKey(m)]
    ensures CacheKey(m) in cache ==> r.1 == cache
    ensures CacheKey(m) !in cache ==> r.0 == loaded
    ensures forall k :: k in cache ==> k in r.1 && r.1[k] == cache[k]
    ensures r.1.Keys == cache.Keys + {CacheKey(m)}
  {
    var key := CacheKey(m);
    if key in cache then (cache[key], cache) else (loaded, cache[key := loaded])
  }

  /** The attributes of a plain Python function object such as `memoize`, as
      `dir()` lists them for a function in CPython 3.12: those of its type and
      the entries of its empty `__dict__`. `cache` is not one: memoize's
      dictionary is a local of each call, captured by the wrapper it returns,
      and never set as an attribute. */
  const FunctionAttributes: set<string> := {
    "__annotations__", "__builtins__", "__call__", "__class__", "__closure__", "__code__",
    "__defaults__", "__delattr__", "__dict__", "__dir__", "__doc__", "__eq__", "__format__",
    "__ge__", "__get__", "__getattribute__", "__getstate__", "__globals__", "__gt__", "__hash__",
    "__init__", "__init_subclass__", "__kwdefaults__", "__le__", "__lt__", "__module__", "__name__",
    "__ne__", "__new__", "__qualname__", "__reduce__", "__reduce_ex__", "__repr__", "__setattr__",
    "__sizeof__", "__str__", "__subclasshook__", "__type_params__"}

  /** `memoize.<name>`: the AttributeError a missing attribute raises. */
  function MemoizeAttribute(name: string): (r: Result<()>)
    ensures r.Err? <==> name !in FunctionAttributes
    ensures r.Err? ==> r.error == "'function' object has no attribute '" + name + "'"
  {
    if name in FunctionAttributes then Ok(()) else Err("'function' object has no attribute '" + name + "'")
  }

  /** set_chunks as written: the rows are filtered, then `memoize.cache[key]`
      reads the attribute before anything is stored. */
  function SetChunksAsWritten(cache: ChunkCache, m: Mapa, chunks: seq<MapChunk>): Result<ChunkCache> {
    var filtered := ChunksOfMap(chunks, m.nome, TurnoValue(m.turno));
    match MemoizeAttribute("cache")
    case Err(e) => Err(e)
    case Ok(_) => Ok(cache[CacheKey(m) := filtered])
  }

  /** Every call of set_chunks raises AttributeError, whatever the map, the
      rows and the cache, so nothing is ever cached by it. */
  lemma SetChunksAlwaysRaises(cache: ChunkCache, m: Mapa, chunks: seq<MapChunk>)
    ensures SetChunksAsWritten(cache, m, chunks) == Err("'function' object has no attribute 'cache'")
  {
    assert "cache" !in FunctionAttributes by {
      assert |"cache"| == 5;
    }
  }

  /** set_chunks as intended: this map's rows replace what the get_chunks
      wrapper has stored for it. */
  function SetChunks(cache: ChunkCache, m: Mapa, chunks: seq<MapChunk>): (r: ChunkCache)
    ensures r.Keys == cache.Keys + {CacheKey(m)}
  {
    cache[CacheKey(m) := ChunksOfMap(chunks, m.nome, TurnoValue(m.turno))]
  }

  /** After the intended set_chunks, get_chunks returns exactly this map's rows
      of the given ones without reading the database, and the stored results
      of every map filed under another key, such as the same name's other
      turn, are what they were. */
  lemma SetChunksThenGetChunks(cache: ChunkCache, m: Mapa, chunks: seq<MapChunk>, loaded: seq<MapChunk>, other: Mapa)
    requires CacheKey(other) != CacheKey(m)
    ensures MemoGetChunks(SetChunks(cache, m, chunks), m, loaded).0 == ChunksOfMap(chunks, m.nome, TurnoValue(m.turno))
    ensures MemoGetChunks(SetChunks(cache, m, chunks), other, loaded).0 == MemoGetChunks(cache, other, loaded).0
  {
  }

  /** get_chunks_by_bioma: the rows whose biome equals the argument ignoring case. */
  function ChunksByBioma(chunks: seq<MapChunk>, bioma: string): (r: seq<MapChunk>)
    ensures forall i :: 0 <= i < |r| ==> EqualsIgnoreCase(r[i].idBioma, bioma) && r[i] in chunks
    ensures forall i :: 0 <= i < |chunks| ==> (chunks[i] in r <==> EqualsIgnoreCase(chunks[i].idBioma, bioma))
  {
    Seqs.Filter(chunks, (c: MapChunk) => EqualsIgnoreCase(c.idBioma, bioma))
  }

  /** The biome filter keeps the rows' order, and "DESERTO" selects the same rows as "deserto". */
  lemma ChunksByBiomaOrderAndCase(chunks: seq<MapChunk>, bioma: string, other: string)
    requires Lower(bioma) == Lower(other)
    ensures Seqs.Subsequence(ChunksByBioma(chunks, bioma), chunks)
    ensures ChunksByBioma(chunks, bioma) == ChunksByBioma(chunks, other)
  {
    Seqs.FilterOrder(chunks, (c: MapChunk) => EqualsIgnoreCase(c.idBioma, bioma));
    Seqs.FilterCongruence(chunks, (c: MapChunk) => EqualsIgnoreCase(c.idBioma, bioma),
      (c: MapChunk) => EqualsIgnoreCase(c.idBioma, other));
  }

  /** The biome name of each row, in order: the keys the distribution loop counts. */
  function Biomas(chunks: seq<MapChunk>): (r: seq<string>)
    ensures |r| == |chunks| && forall i :: 0 <= i < |r| ==> r[i] == chunks[i].idBioma
  {
    seq(|chunks|, i requires 0 <= i < |chunks| => chunks[i].idBioma)
  }

  /** get_bioma_distribution: {} for no rows; otherwise the count of each biome.
      Every row's biome is a key, every count is positive, and the counts add
      up to the number of rows. */
  method BiomaDistribution(chunks: seq<MapChunk>) returns (d: map<string, nat>)
    ensures d == Histogram(Biomas(chunks))
    ensures d == map[] <==> |chunks| == 0
    ensures forall i :: 0 <= i < |chunks| ==> chunks[i].idBioma in d
    ensures forall b :: b in d ==> d[b] >= 1
    ensures MapSum(d) == |chunks|
  {
    HistogramEmpty(Biomas(chunks));
    HistogramTotal(Biomas(chunks));
    if |chunks| == 0 {
      return map[];
    }
    d := Tally(Biomas(chunks));
  }

  /** The first row carrying the number, or None when no row does. */
  function ChunkNumbered(chunks: seq<MapChunk>, numero: int): (r: Option<MapChunk>)
    ensures r.None? <==> forall i :: 0 <= i < |chunks| ==> chunks[i].numeroChunk != numero
    ensures r.Some? ==> r.value.numeroChunk == numero && r.value in chunks
  {
    match Seqs.FirstIndex(chunks, (c: MapChunk) => c.numeroChunk == numero)
    case None => None
    case Some(i) => Some(chunks[i])
  }

  /** Of several rows with the number, the lookup returns the earliest. */
  lemma ChunkNumberedIsFirst(chunks: seq<MapChunk>, numero: int, i: nat)
    requires i < |chunks| && chunks[i].numeroChunk == numero
    requires forall j :: 0 <= j < i ==> chunks[j].numeroChunk != numero
    ensures ChunkNumbered(chunks, numero) == Some(chunks[i])
  {
    Seqs.FirstIndexAt(chunks, (c: MapChunk) => c.numeroChunk == numero, i);
  }

  /** get_chunk_by_id: walk the rows and return the first one carrying the number. */
  method FindChunkByNumber(chunks: seq<MapChunk>, numero: int) returns (r: Option<MapChunk>)
    ensures r == ChunkNumbered(chunks, numero)
  {
    for i := 0 to |chunks|
      invariant forall j :: 0 <= j < i ==> chunks[j].numeroChunk != numero
    {
      if chunks[i].numeroChunk == numero {
        ChunkNumberedIsFirst(chunks, numero, i);
        return Some(chunks[i]);
      }
    }
    return None;
  }

  /** The get_display_info dictionary: nome, turno and tipo always, and
      total_chunks with distribuicao only when the map has chunks. */
  datatype MapDisplayInfo = MapDisplayInfo(
    nome: string, turno: string, tipo: string,
    totalChunks: Option<nat>, distribuicao: Option<map<string, nat>>)

  /** get_display_info. `tipo` reads "Dia" exactly for day maps; the chunk
      entries are present exactly when there are chunks, and then the
      distribution adds up to the total. */
  method GetDisplayInfo(m: Mapa, chunks: seq<MapChunk>) returns (info: MapDisplayInfo)
    ensures info.nome == m.nome && info.turno == TurnoValue(m.turno)
    ensures info.tipo == "Dia" <==> IsDayMap(m)
    ensures info.tipo == (if IsDayMap(m) then "Dia" else "Noite")
    ensures info.totalChunks.Some? <==> |chunks| > 0
    ensures info.distribuicao.Some? <==> |chunks| > 0
    ensures info.totalChunks.Some? ==> (info.totalChunks.value == |chunks|
      && info.distribuicao.value == Histogram(Biomas(chunks))
      && MapSum(info.distribuicao.value) == info.totalChunks.value)
  {
    var tipo := if IsDayMap(m) then "Dia" else "Noite";
    info := MapDisplayInfo(m.nome, TurnoValue(m.turno), tipo, None, None);
    if |chunks| > 0 {
      var d := BiomaDistribution(chunks);
      info := info.(totalChunks := Some(|chunks|), distribuicao := Some(d));
    }
  }
}
