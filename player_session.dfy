/** The active-session character, PlayerSession. The class appears twice in
    the repository with the same fields and the same vitals rules: in
    app/src/utils/player_manager.py (to_dict, is_alive, take_damage, heal,
    gain_xp) and in app/src/models/player.py, which adds can_move and
    get_location_display. It is modelled once, here. */
module PlayerSessionModel {
  import opened Common
  import opened PlayerModel

  /** All ten attributes of a session, in the order to_dict lists them. */
  datatype SessionState = SessionState(
    idJogador: int,
    nome: string,
    vidaMax: int,
    vidaAtual: int,
    xp: int,
    forca: int,
    idChunkAtual: Option<int>,
    chunkBioma: Option<string>,
    chunkMapaNome: Option<string>,
    chunkMapaTurno: Option<string>)

  const SessionKeys: set<string> := {
    "id_jogador", "nome", "vida_max", "vida_atual", "xp", "forca",
    "id_chunk_atual", "chunk_bioma", "chunk_mapa_nome", "chunk_mapa_turno"}

  function OptInt(v: FieldValue): Option<int> {
    if v.IntValue? then Some(v.i) else None
  }

  function OptStr(v: FieldValue): Option<string> {
    if v.StrValue? then Some(v.s) else None
  }

  predicate OptIntField(v: FieldValue) {
    v.IntValue? || v.NoneValue?
  }

  predicate OptStrField(v: FieldValue) {
    v.StrValue? || v.NoneValue?
  }

  /** Reads a to_dict dictionary back into the ten attributes; None when a key
      is missing or holds the wrong kind of value. */
  function DecodeSession(d: map<string, FieldValue>): Option<SessionState> {
    if SessionKeys <= d.Keys
       && d["id_jogador"].IntValue? && d["nome"].StrValue? && d["vida_max"].IntValue?
       && d["vida_atual"].IntValue? && d["xp"].IntValue? && d["forca"].IntValue?
       && OptIntField(d["id_chunk_atual"]) && OptStrField(d["chunk_bioma"])
       && OptStrField(d["chunk_mapa_nome"]) && OptStrField(d["chunk_mapa_turno"])
    then Some(SessionState(
      d["id_jogador"].i, d["nome"].s, d["vida_max"].i, d["vida_atual"].i, d["xp"].i, d["forca"].i,
      OptInt(d["id_chunk_atual"]), OptStr(d["chunk_bioma"]),
      OptStr(d["chunk_mapa_nome"]), OptStr(d["chunk_mapa_turno"])))
    else None
  }

  /** What get_location_display prints when the biome is known. */
  function LocationText(bioma: string, mapaNome: Option<string>, mapaTurno: Option<string>): string {
    bioma + " (" + ShowOpt(mapaNome) + " - " + ShowOpt(mapaTurno) + ")"
  }

  const UnknownLocation: string := "Desconhecida"

  /** A located display never reads "Desconhecida": it carries a '(' right after the biome. */
  lemma LocationTextIsNotUnknown(bioma: string, mapaNome: Option<string>, mapaTurno: Option<string>)
    ensures LocationText(bioma, mapaNome, mapaTurno) != UnknownLocation
    ensures bioma <= LocationText(bioma, mapaNome, mapaTurno)
  {
    var t := LocationText(bioma, mapaNome, mapaTurno);
    assert t[|bioma| + 1] == '(';
    if |t| == |UnknownLocation| {
      assert forall i :: 0 <= i < |UnknownLocation| ==> UnknownLocation[i] != '(';
    }
  }

  class PlayerSession {
    const idJogador: int
    var nome: string
    var vidaMax: int
    var vidaAtual: int
    var xp: int
    var forca: int
    var idChunkAtual: Option<int>
    var chunkBioma: Option<string>
    var chunkMapaNome: Option<string>
    var chunkMapaTurno: Option<string>

    function State(): SessionState
      reads this
    {
      SessionState(idJogador, nome, vidaMax, vidaAtual, xp, forca,
        idChunkAtual, chunkBioma, chunkMapaNome, chunkMapaTurno)
    }

    /** The dataclass constructor: the location fields default to None. */
    constructor (idJogador: int, nome: string, vidaMax: int, vidaAtual: int, xp: int, forca: int,
                 idChunkAtual: Option<int>, chunkBioma: Option<string>,
                 chunkMapaNome: Option<string>, chunkMapaTurno: Option<string>)
      ensures State() == SessionState(idJogador, nome, vidaMax, vidaAtual, xp, forca,
        idChunkAtual, chunkBioma, chunkMapaNome, chunkMapaTurno)
    {
      this.idJogador := idJogador;
      this.nome := nome;
      this.vidaMax := vidaMax;
      this.vidaAtual := vidaAtual;
      this.xp := xp;
      this.forca := forca;
      this.idChunkAtual := idChunkAtual;
      this.chunkBioma := chunkBioma;
      this.chunkMapaNome := chunkMapaNome;
      this.chunkMapaTurno := chunkMapaTurno;
    }

    /** to_dict: one entry per attribute under its own name, so decoding the
        dictionary gives back exactly the current attributes. */
    function ToDict(): (d: map<string, FieldValue>)
      reads this
      ensures d.Keys == SessionKeys
      ensures DecodeSession(d) == Some(State())
    {
      map[
        "id_jogador" := IntValue(idJogador),
        "nome" := StrValue(nome),
        "vida_max" := IntValue(vidaMax),
        "vida_atual" := IntValue(vidaAtual),
        "xp" := IntValue(xp),
        "forca" := IntValue(forca),
        "id_chunk_atual" := OptIntValue(idChunkAtual),
        "chunk_bioma" := OptStrValue(chunkBioma),
        "chunk_mapa_nome" := OptStrValue(chunkMapaNome),
        "chunk_mapa_turno" := OptStrValue(chunkMapaTurno)
      ]
    }

    predicate IsAlive()
      reads this
    {
      vidaAtual > 0
    }

    /** take_damage: health becomes max(0, health - damage) and the result is
        is_alive() afterwards; a session that dies can no longer move. */
    method TakeDamage(damage: int) returns (alive: bool)
      modifies this`vidaAtual
      ensures vidaAtual == Damaged(old(vidaAtual), damage)
      ensures alive <==> IsAlive()
      ensures !alive ==> !CanMove()
      ensures damage >= 0 && old(vidaAtual) >= 0 ==> 0 <= vidaAtual <= old(vidaAtual)
    {
      vidaAtual := if vidaAtual - damage > 0 then vidaAtual - damage else 0;
      alive := IsAlive();
    }

    /** heal: health becomes min(vida_max, health + amount), so it ends at most vida_max. */
    method Heal(amount: int)
      modifies this`vidaAtual
      ensures vidaAtual == Healed(old(vidaAtual), vidaMax, amount)
      ensures vidaAtual <= vidaMax
    {
      vidaAtual := if vidaMax < vidaAtual + amount then vidaMax else vidaAtual + amount;
    }

    /** gain_xp: only the experience changes. */
    method GainXp(amount: int)
      modifies this`xp
      ensures State() == old(State()).(xp := old(xp) + amount)
    {
      xp := xp + amount;
    }

    /** can_move (player.py only): alive and standing on a chunk. */
    predicate CanMove()
      reads this
    {
      IsAlive() && idChunkAtual.Some?
    }

    /** get_location_display (player.py only): the biome with map name and turn
        when the biome is a non-empty string, "Desconhecida" otherwise; the two
        cases never print the same text. */
    function GetLocationDisplay(): (r: string)
      reads this
      ensures r == UnknownLocation <==> !Truthy(chunkBioma)
      ensures Truthy(chunkBioma) ==> chunkBioma.value <= r
    {
      if Truthy(chunkBioma) then
        LocationTextIsNotUnknown(chunkBioma.value, chunkMapaNome, chunkMapaTurno);
        LocationText(chunkBioma.value, chunkMapaNome, chunkMapaTurno)
      else UnknownLocation
    }
  }
}
