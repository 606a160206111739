/** The NPC ("fantasma") of app/src/models/fantasma.py: a miner or a builder
    that may perform a single action. Mining draws a quantity from a fixed
    table of inclusive ranges; building checks a fixed cost table against a
    resource dictionary owned by the caller and, only when every cost is
    covered, deducts all of them from it in place. */
module FantasmaModel {
  import opened Common

  const Minerador: string := "minerador"
  const Construtor: string := "construtor"

  /** The two NPC kinds the constructor accepts. */
  predicate ValidTipo(tipo: string) {
    tipo == Minerador || tipo == Construtor
  }

  // ---------------------------------------------------------------------------
  // tables

  /** Mining yields: material to inclusive (low, high) range. */
  const YieldTable: map<string, (int, int)> := map[
    "madeira" := (20, 30),
    "pedra" := (10, 20),
    "ferro" := (5, 10),
    "carvão" := (3, 6),
    "redstone" := (1, 3),
    "diamante" := (0, 1)
  ]

  /** One line of a construction's cost, in the table's order. */
  datatype CostLine = CostLine(resource: string, qty: nat)

  /** Construction costs in dictionary order; None for an unknown construction. */
  function Costs(tipo: string): Option<seq<CostLine>> {
    if tipo == "totem" then Some([CostLine("pedra", 10), CostLine("carvão", 3), CostLine("redstone", 1)])
    else if tipo == "ponte" then Some([CostLine("madeira", 15), CostLine("pedra", 10)])
    else None
  }

  predicate DistinctResources(lines: seq<CostLine>) {
    forall i, j :: 0 <= i < j < |lines| ==> lines[i].resource != lines[j].resource
  }

  /** Both cost tables name each resource once, and every cost is positive. */
  lemma CostTablesWellFormed(tipo: string)
    requires Costs(tipo).Some?
    ensures DistinctResources(Costs(tipo).value)
    ensures forall i :: 0 <= i < |Costs(tipo).value| ==> Costs(tipo).value[i].qty > 0
  {
  }

  // ---------------------------------------------------------------------------
  // the caller's resource dictionary

  /** The dictionary passed to construir: the caller keeps a reference and sees the deduction. */
  class Recursos {
    var itens: map<string, int>

    constructor (itens: map<string, int>)
      ensures this.itens == itens
    {
      this.itens := itens;
    }

    /** The second loop of construir: `recursos[r] -= qtd` for every line. */
    method Pay(lines: seq<CostLine>)
      requires AllPresent(itens, lines)
      modifies this
      ensures itens == Deduct(old(itens), lines)
    {
      ghost var before := itens;
      var i := 0;
      while i < |lines|
        invariant 0 <= i <= |lines|
        invariant itens == Deduct(before, lines[..i])
      {
        assert lines[..i + 1][..i] == lines[..i];
        itens := itens[lines[i].resource := itens[lines[i].resource] - lines[i].qty];
        i := i + 1;
      }
      assert lines[..|lines|] == lines;
    }
  }

  /** `recursos.get(r, 0)` */
  function Get(m: map<string, int>, r: string): int {
    if r in m then m[r] else 0
  }

  /** The first cost line, in table order, that the dictionary cannot cover,
      with the amount missing (a missing key counts as 0). */
  function FirstShortfall(m: map<string, int>, lines: seq<CostLine>): (r: Option<(string, int)>)
    ensures r.None? <==> forall i :: 0 <= i < |lines| ==> Get(m, lines[i].resource) >= lines[i].qty
    ensures r.Some? ==> r.value.1 > 0
    decreases |lines|
  {
    if |lines| == 0 then None
    else if Get(m, lines[0].resource) < lines[0].qty then
      Some((lines[0].resource, lines[0].qty - Get(m, lines[0].resource)))
    else
      var r := FirstShortfall(m, lines[1..]);
      assert forall i :: 1 <= i < |lines| ==> lines[i] == lines[1..][i - 1];
      r
  }

  /** The shortfall reported is the one of the first uncovered line, whichever line that is. */
  lemma {:induction false} FirstShortfallAt(m: map<string, int>, lines: seq<CostLine>, i: nat)
    requires i < |lines| && Get(m, lines[i].resource) < lines[i].qty
    requires forall j :: 0 <= j < i ==> Get(m, lines[j].resource) >= lines[j].qty
    ensures FirstShortfall(m, lines) == Some((lines[i].resource, lines[i].qty - Get(m, lines[i].resource)))
    decreases i
  {
    if i > 0 {
      assert lines[1..][i - 1] == lines[i];
      FirstShortfallAt(m, lines[1..], i - 1);
    }
  }

  /** Sum of the costs charged to resource k by the lines. */
  function CostOf(lines: seq<CostLine>, k: string): nat
    decreases |lines|
  {
    if |lines| == 0 then 0
    else CostOf(lines[..|lines| - 1], k) + (if lines[|lines| - 1].resource == k then lines[|lines| - 1].qty else 0)
  }

  /** With distinct resources a line's resource is charged exactly that line's cost,
      and a resource on no line is charged nothing. */
  lemma {:induction false} CostOfDistinct(lines: seq<CostLine>, k: string)
    requires DistinctResources(lines)
    ensures forall i :: 0 <= i < |lines| && lines[i].resource == k ==> CostOf(lines, k) == lines[i].qty
    ensures (forall i :: 0 <= i < |lines| ==> lines[i].resource != k) ==> CostOf(lines, k) == 0
    decreases |lines|
  {
    if |lines| > 0 {
      CostOfDistinct(lines[..|lines| - 1], k);
    }
  }

  predicate AllPresent(m: map<string, int>, lines: seq<CostLine>) {
    forall i :: 0 <= i < |lines| ==> lines[i].resource in m
  }

  /** The dictionary after `recursos[r] -= qtd` for each line, in order. */
  function Deduct(m: map<string, int>, lines: seq<CostLine>): (d: map<string, int>)
    requires AllPresent(m, lines)
    ensures d.Keys == m.Keys
    decreases |lines|
  {
    if |lines| == 0 then m
    else
      var d0 := Deduct(m, lines[..|lines| - 1]);
      var l := lines[|lines| - 1];
      d0[l.resource := d0[l.resource] - l.qty]
  }

  /** Every key loses exactly what the lines charge it; no key is added or removed. */
  lemma {:induction false} DeductSpec(m: map<string, int>, lines: seq<CostLine>)
    requires AllPresent(m, lines)
    ensures Deduct(m, lines).Keys == m.Keys
    ensures forall k :: k in m ==> Deduct(m, lines)[k] == m[k] - CostOf(lines, k)
    decreases |lines|
  {
    if |lines| > 0 {
      DeductSpec(m, lines[..|lines| - 1]);
    }
  }

  /** The builder test: {pedra 15, carvão 5, redstone 2} pays for a totem and
      is left at {pedra 5, carvão 2, redstone 1}. */
  lemma TotemDeductionExample()
    ensures FirstShortfall(map["pedra" := 15, "carvão" := 5, "redstone" := 2], Costs("totem").value) == None
    ensures Deduct(map["pedra" := 15, "carvão" := 5, "redstone" := 2], Costs("totem").value)
      == map["pedra" := 5, "carvão" := 2, "redstone" := 1]
  {
    var m := map["pedra" := 15, "carvão" := 5, "redstone" := 2];
    var lines := Costs("totem").value;
    assert lines[..2][..1] == [lines[0]];
    assert Deduct(m, lines[..1]) == map["pedra" := 5, "carvão" := 5, "redstone" := 2];
    assert Deduct(m, lines[..2]) == map["pedra" := 5, "carvão" := 2, "redstone" := 2];
  }

  /** The first loop of construir: walk the cost lines in order and stop at the
      first one the dictionary cannot cover. */
  method FindShortfall(m: map<string, int>, lines: seq<CostLine>) returns (s: Option<(string, int)>)
    ensures s == FirstShortfall(m, lines)
  {
    var i := 0;
    while i < |lines|
      invariant 0 <= i <= |lines|
      invariant forall j :: 0 <= j < i ==> Get(m, lines[j].resource) >= lines[j].qty
    {
      var have := Get(m, lines[i].resource);
      if have < lines[i].qty {
        FirstShortfallAt(m, lines, i);
        return Some((lines[i].resource, lines[i].qty - have));
      }
      i := i + 1;
    }
    s := None;
  }

  /** A positive cost that is covered names a key that is present. */
  lemma CoveredMeansPresent(m: map<string, int>, lines: seq<CostLine>)
    requires forall i :: 0 <= i < |lines| ==> lines[i].qty > 0
    requires FirstShortfall(m, lines).None?
    ensures AllPresent(m, lines)
  {
  }

  // ---------------------------------------------------------------------------
  // outcomes

  /** What minerar returns: None, a ValueError, or a one-entry dictionary. */
  datatype MineResult = Refused | InvalidMaterial | Mined(produced: map<string, int>)

  /** What construir answers; Message gives the exact text. */
  datatype BuildResult =
    | CannotBuild
    | InvalidConstruction
    | Shortfall(resource: string, missing: int)
    | BridgeBuilt(origin: string, destination: string)
    | TotemBuilt(at: string)

  function Message(r: BuildResult): string {
    match r
    case CannotBuild => "Não pode construir."
    case InvalidConstruction => "Construção inválida."
    case Shortfall(res, n) => "Faltam " + IntToString(n) + " de " + res
    case BridgeBuilt(a, b) => "Ponte construída de " + a + " para " + b
    case TotemBuilt(a) => "Totem construído em " + a
  }

  /** The deficit test: five stone short of a totem reads "Faltam 5 de pedra". */
  lemma ShortfallMessageExample()
    ensures FirstShortfall(map["pedra" := 5, "carvão" := 3, "redstone" := 1], Costs("totem").value) == Some(("pedra", 5))
    ensures Message(Shortfall("pedra", 5)) == "Faltam 5 de pedra"
  {
  }

  // ---------------------------------------------------------------------------
  // the NPC

  class Fantasma {
    const id: int
    const chunk: string
    const tipo: string
    var ativo: bool
    var acaoRealizada: bool
    var tipoConstrucao: Option<string>

    constructor (id: int, chunk: string, tipo: string)
      requires ValidTipo(tipo)
      ensures this.id == id && this.chunk == chunk && this.tipo == tipo
      ensures ativo && !acaoRealizada && tipoConstrucao == None
    {
      this.id := id;
      this.chunk := chunk;
      this.tipo := tipo;
      ativo := true;
      acaoRealizada := false;
      tipoConstrucao := None;
    }

    /** minerar. A builder, or a miner that has already acted, gets None and
        nothing changes. Otherwise the action is spent first; an unknown
        material then raises, and a known one yields a single entry drawn
        from its inclusive range. */
    method Minerar(material: string) returns (r: MineResult)
      modifies this`acaoRealizada
      ensures tipo != Minerador || old(acaoRealizada) ==> r == Refused && acaoRealizada == old(acaoRealizada)
      ensures tipo == Minerador && !old(acaoRealizada) ==> acaoRealizada
      ensures tipo == Minerador && !old(acaoRealizada) && material !in YieldTable ==> r == InvalidMaterial
      ensures tipo == Minerador && !old(acaoRealizada) && material in YieldTable ==>
        r.Mined? && r.produced.Keys == {material}
        && YieldTable[material].0 <= r.produced[material] <= YieldTable[material].1
    {
      if tipo != Minerador || acaoRealizada {
        return Refused;
      }
      acaoRealizada := true;
      if material !in YieldTable {
        return InvalidMaterial;
      }
      var (lo, hi) := YieldTable[material];
      var n :| lo <= n <= hi;
      r := Mined(map[material := n]);
    }

    /** construir. The checks come in the code's order: kind and spent action,
        then the construction name, then each cost line in table order. Every
        failure leaves the NPC and the dictionary as they were. On success the
        action is spent, the construction recorded, and each cost deducted
        (DeductSpec: every resource loses exactly what the table charges it). */
    method Construir(obra: string, recursos: Recursos, destino: Option<string>) returns (r: BuildResult)
      modifies this`acaoRealizada, this`tipoConstrucao, recursos
      ensures tipo != Construtor || old(acaoRealizada) ==>
        r == CannotBuild && unchanged(this) && unchanged(recursos)
      ensures tipo == Construtor && !old(acaoRealizada) && Costs(obra).None? ==>
        r == InvalidConstruction && unchanged(this) && unchanged(recursos)
      ensures (tipo == Construtor && !old(acaoRealizada) && Costs(obra).Some?
        && FirstShortfall(old(recursos.itens), Costs(obra).value).Some?) ==>
        r == Shortfall(FirstShortfall(old(recursos.itens), Costs(obra).value).value.0,
                       FirstShortfall(old(recursos.itens), Costs(obra).value).value.1)
        && unchanged(this) && unchanged(recursos)
      ensures (tipo == Construtor && !old(acaoRealizada) && Costs(obra).Some?
        && FirstShortfall(old(recursos.itens), Costs(obra).value).None?) ==>
        acaoRealizada && tipoConstrucao == Some(obra)
        && AllPresent(old(recursos.itens), Costs(obra).value)
        && recursos.itens == Deduct(old(recursos.itens), Costs(obra).value)
        && r == (if obra == "ponte" && Truthy(destino) then BridgeBuilt(chunk, destino.value) else TotemBuilt(chunk))
    {
      if tipo != Construtor || acaoRealizada {
        return CannotBuild;
      }
      var custos := Costs(obra);
      if custos.None? {
        return InvalidConstruction;
      }
      var lines := custos.value;
      var falta := FindShortfall(recursos.itens, lines);
      if falta.Some? {
        return Shortfall(falta.value.0, falta.value.1);
      }
      CostTablesWellFormed(obra);
      CoveredMeansPresent(recursos.itens, lines);
      acaoRealizada := true;
      tipoConstrucao := Some(obra);
      recursos.Pay(lines);
      if obra == "ponte" && Truthy(destino) {
        r := BridgeBuilt(chunk, destino.value);
      } else {
        r := TotemBuilt(chunk);
      }
    }

    /** A snapshot of every attribute. */
    function State(): FantasmaState
      reads this
    {
      FantasmaState(id, chunk, tipo, ativo, acaoRealizada, tipoConstrucao)
    }

    /** to_dict: the six attributes under their own names, so that decoding
        the dictionary gives back exactly the current attributes. */
    function ToDict(): (d: map<string, FieldValue>)
      reads this
      ensures d.Keys == FantasmaKeys
      ensures DecodeFantasma(d) == Some(State())
    {
      map[
        "id" := IntValue(id),
        "chunk" := StrValue(chunk),
        "tipo" := StrValue(tipo),
        "ativo" := BoolValue(ativo),
        "acao_realizada" := BoolValue(acaoRealizada),
        "tipo_construcao" := OptStrValue(tipoConstrucao)
      ]
    }
  }

  /** The fantasma constructor: an unknown kind raises ValueError and no NPC is made. */
  method NewFantasma(id: int, chunk: string, tipo: string) returns (r: Result<Fantasma>)
    ensures !ValidTipo(tipo) <==> r.Err?
    ensures r.Err? ==> r.error == "Tipo deve ser 'minerador' ou 'construtor'."
    ensures r.Ok? ==> fresh(r.value) && r.value.State() == FantasmaState(id, chunk, tipo, true, false, None)
  {
    if !ValidTipo(tipo) {
      return Err("Tipo deve ser 'minerador' ou 'construtor'.");
    }
    var f := new Fantasma(id, chunk, tipo);
    r := Ok(f);
  }

  datatype FantasmaState = FantasmaState(
    id: int, chunk: string, tipo: string, ativo: bool, acaoRealizada: bool, tipoConstrucao: Option<string>)

  const FantasmaKeys: set<string> := {"id", "chunk", "tipo", "ativo", "acao_realizada", "tipo_construcao"}

  /** Reads a to_dict dictionary back; None when a key is missing or holds the wrong kind of value. */
  function DecodeFantasma(d: map<string, FieldValue>): Option<FantasmaState> {
    if FantasmaKeys <= d.Keys
       && d["id"].IntValue? && d["chunk"].StrValue? && d["tipo"].StrValue?
       && d["ativo"].BoolValue? && d["acao_realizada"].BoolValue?
       && (d["tipo_construcao"].StrValue? || d["tipo_construcao"].NoneValue?)
    then Some(FantasmaState(
      d["id"].i, d["chunk"].s, d["tipo"].s, d["ativo"].b, d["acao_realizada"].b,
      if d["tipo_construcao"].StrValue? then Some(d["tipo_construcao"].s) else None))
    else None
  }
}
