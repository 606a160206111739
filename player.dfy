/** The character of app/src/models/player.py: integer vitals that are clamped
    on construction, floored at 0 by damage and capped at the maximum by
    healing, experience that only grows, and a level-up rule at 100 XP per level. */
module PlayerModel {
  import opened Common

  /** Health after `max(0, vida - damage)`: never negative, never below
      vida - damage, and one of the two. */
  function Damaged(vida: int, damage: int): (r: int)
    ensures r >= 0 && r >= vida - damage
    ensures r == 0 || r == vida - damage
  {
    if vida - damage > 0 then vida - damage else 0
  }

  /** Health after `min(vidaMax, vida + amount)`: never above the maximum,
      never above vida + amount, and one of the two. */
  function Healed(vida: int, vidaMax: int, amount: int): (r: int)
    ensures r <= vidaMax && r <= vida + amount
    ensures r == vidaMax || r == vida + amount
  {
    if vida + amount < vidaMax then vida + amount else vidaMax
  }

  /** Damage of d >= 0 never heals, and healing by a >= 0 never hurts unless
      health was already above the maximum. */
  lemma VitalsMonotone(vida: int, vidaMax: int, d: int, a: int)
    requires d >= 0 && a >= 0
    ensures Damaged(vida, d) <= vida || vida < 0
    ensures vida <= vidaMax ==> vida <= Healed(vida, vidaMax, a)
  {
  }

  /** Damage is floored at 0 whatever is dealt, and a full heal restores the maximum. */
  lemma DamageThenHeal(vida: int, vidaMax: int, d: int)
    requires 0 <= vida <= vidaMax && d >= 0
    ensures 0 <= Damaged(vida, d) <= vidaMax
    ensures Healed(Damaged(vida, d), vidaMax, vidaMax) == vidaMax
    ensures Damaged(vida, vida) == 0
  {
  }

  /** The attributes of a Player: one row of the character table. */
  datatype PlayerData = PlayerData(
    idJogador: Option<int>,
    nome: string,
    vidaMaxima: int,
    vidaAtual: int,
    forca: int,
    localizacao: string,
    nivel: int,
    experiencia: int)

  /** `__eq__` compares ids only (None equals None). */
  predicate SamePlayer(a: PlayerData, b: PlayerData) {
    a.idJogador == b.idJogador
  }

  /** The value `__hash__` hashes. */
  function PlayerHashKey(p: PlayerData): Option<int> {
    p.idJogador
  }

  /** Players agreeing on the id are equal whatever else differs, and equal players hash alike. */
  lemma PlayerIdentityIsId(a: PlayerData, b: PlayerData)
    ensures SamePlayer(a, b) <==> PlayerHashKey(a) == PlayerHashKey(b)
    ensures SamePlayer(a, b) <==> SamePlayer(a.(nome := b.nome, vidaMaxima := b.vidaMaxima, vidaAtual := b.vidaAtual,
      forca := b.forca, localizacao := b.localizacao, nivel := b.nivel, experiencia := b.experiencia), b)
  {
  }

  /** The experience a level needs before level_up succeeds. */
  function LevelThreshold(nivel: int): int {
    nivel * 100
  }

  class Player {
    const idJogador: Option<int>
    var nome: string
    var vidaMaxima: int
    var vidaAtual: int
    var forca: int
    var localizacao: string
    var nivel: int
    var experiencia: int

    /** Health never exceeds the maximum: established by __post_init__,
        kept by heal and level_up, and by take_damage for d >= 0 whenever the
        maximum is not negative. */
    predicate Valid()
      reads this
    {
      vidaAtual <= vidaMaxima
    }

    function State(): PlayerData
      reads this
    {
      PlayerData(idJogador, nome, vidaMaxima, vidaAtual, forca, localizacao, nivel, experiencia)
    }

    /** The dataclass constructor followed by __post_init__, which clamps the
        current health to the maximum. */
    constructor (idJogador: Option<int>, nome: string, vidaMaxima: int, vidaAtual: int,
                 forca: int, localizacao: string, nivel: int, experiencia: int)
      ensures State() == PlayerData(idJogador, nome, vidaMaxima,
        if vidaAtual > vidaMaxima then vidaMaxima else vidaAtual, forca, localizacao, nivel, experiencia)
      ensures Valid()
    {
      this.idJogador := idJogador;
      this.nome := nome;
      this.vidaMaxima := vidaMaxima;
      this.forca := forca;
      this.localizacao := localizacao;
      this.nivel := nivel;
      this.experiencia := experiencia;
      this.vidaAtual := vidaAtual;
      new;
      // __post_init__
      if this.vidaAtual > this.vidaMaxima {
        this.vidaAtual := this.vidaMaxima;
      }
    }

    predicate IsAlive()
      reads this
    {
      vidaAtual > 0
    }

    /** take_damage: health becomes max(0, health - damage); the result is whether the player still lives. */
    method TakeDamage(damage: int) returns (alive: bool)
      modifies this`vidaAtual
      ensures vidaAtual == Damaged(old(vidaAtual), damage)
      ensures alive <==> IsAlive()
      ensures damage >= 0 && old(vidaAtual) >= 0 ==> vidaAtual <= old(vidaAtual)
      ensures damage >= 0 && vidaMaxima >= 0 && old(Valid()) ==> Valid()
    {
      vidaAtual := if vidaAtual - damage > 0 then vidaAtual - damage else 0;
      alive := IsAlive();
    }

    /** heal: health becomes min(maximum, health + amount), so it never ends above the maximum. */
    method Heal(amount: int)
      modifies this`vidaAtual
      ensures vidaAtual == Healed(old(vidaAtual), vidaMaxima, amount)
      ensures Valid()
    {
      vidaAtual := if vidaMaxima < vidaAtual + amount then vidaMaxima else vidaAtual + amount;
    }

    /** gain_experience: only the experience changes. */
    method GainExperience(amount: int)
      modifies this`experiencia
      ensures experiencia == old(experiencia) + amount
    {
      experiencia := experiencia + amount;
    }

    /** level_up: the result says whether the threshold was reached, and the new
        attributes are those of LeveledUp. */
    method LevelUp() returns (leveled: bool)
      modifies this
      ensures leveled <==> old(experiencia) >= LevelThreshold(old(nivel))
      ensures State() == LeveledUp(old(State()))
      ensures leveled ==> Valid()
    {
      if experiencia >= nivel * 100 {
        nivel := nivel + 1;
        vidaMaxima := vidaMaxima + 10;
        vidaAtual := vidaMaxima;
        forca := forca + 2;
        return true;
      }
      return false;
    }
  }

  /** The level-up rule on values: the row after one call of level_up. With
      enough experience the level, maximum health and strength go up by 1, 10
      and 2 and health is refilled; otherwise nothing changes. The experience
      is never consumed and the identity never changes. */
  function LeveledUp(p: PlayerData): (q: PlayerData)
    ensures p.experiencia >= LevelThreshold(p.nivel) ==>
      q.nivel == p.nivel + 1 && q.vidaAtual == q.vidaMaxima == p.vidaMaxima + 10 && q.forca == p.forca + 2
    ensures p.experiencia < LevelThreshold(p.nivel) ==> q == p
    ensures q.experiencia == p.experiencia && SamePlayer(p, q)
  {
    if p.experiencia >= LevelThreshold(p.nivel)
    then p.(nivel := p.nivel + 1, vidaMaxima := p.vidaMaxima + 10, vidaAtual := p.vidaMaxima + 10, forca := p.forca + 2)
    else p
  }

  /** Because experience is not consumed, a level-1 player with 250 XP levels
      up twice in a row and then stops (the threshold climbs to 300). */
  lemma LevelUpKeepsExperience()
    ensures var p := PlayerData(Some(1), "Heroi", 100, 100, 10, "Spawn", 1, 250);
      LeveledUp(p).nivel == 2 && LeveledUp(LeveledUp(p)).nivel == 3
      && LeveledUp(LeveledUp(LeveledUp(p))) == LeveledUp(LeveledUp(p))
  {
  }
}
