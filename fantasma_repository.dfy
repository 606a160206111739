/** The in-memory NPC store FantasmaRepositoryImpl of
    app/src/repositories/fatasma_repository.py: a list of NPC objects searched
    front to back. `save` replaces the stored NPC with the same id (moving it to
    the end) or appends a new one, so ids stay unique; `delete` removes by id. */
module FantasmaRepositoryModel {
  import opened Common
  import Seqs
  import opened FantasmaModel

  /** No two stored NPCs share an id. */
  predicate UniqueIds(s: seq<Fantasma>) {
    forall i, j :: 0 <= i < j < |s| ==> s[i].id != s[j].id
  }

  /** The position of the first NPC with this id: what
      `next((f for f in fantasmas if f.id == id), None)` stops at. */
  function IndexOfId(s: seq<Fantasma>, id: int): (r: Option<nat>)
    ensures r.None? <==> forall j :: 0 <= j < |s| ==> s[j].id != id
    ensures r.Some? ==> (r.value < |s| && s[r.value].id == id
      && forall j :: 0 <= j < r.value ==> s[j].id != id)
    decreases |s|
  {
    if |s| == 0 then None
    else if s[0].id == id then Some(0)
    else
      var r := IndexOfId(s[1..], id);
      assert forall j :: 1 <= j < |s| ==> s[j] == s[1..][j - 1];
      if r.Some? then Some(r.value + 1) else None
  }

  /** find_by_id on a list. */
  function FirstWithId(s: seq<Fantasma>, id: int): (r: Option<Fantasma>)
    ensures r.Some? ==> r.value in s && r.value.id == id
    ensures r.None? <==> forall j :: 0 <= j < |s| ==> s[j].id != id
  {
    match IndexOfId(s, id)
    case None => None
    case Some(i) => Some(s[i])
  }

  function RemoveAt(s: seq<Fantasma>, i: nat): (r: seq<Fantasma>)
    requires i < |s|
    ensures |r| == |s| - 1
    ensures forall j :: 0 <= j < i ==> r[j] == s[j]
    ensures forall j :: i <= j < |r| ==> r[j] == s[j + 1]
  {
    s[..i] + s[i + 1..]
  }

  /** The list after save(f): the first NPC with f's id, if any, is taken out, and f is appended. */
  function Saved(s: seq<Fantasma>, f: Fantasma): seq<Fantasma> {
    match IndexOfId(s, f.id)
    case None => s + [f]
    case Some(i) => RemoveAt(s, i) + [f]
  }

  /** The list after delete(id). */
  function Deleted(s: seq<Fantasma>, id: int): seq<Fantasma> {
    match IndexOfId(s, id)
    case None => s
    case Some(i) => RemoveAt(s, i)
  }

  /** An NPC appended after others with different ids is the one its id finds. */
  lemma AppendedIsFound(s: seq<Fantasma>, f: Fantasma)
    requires forall j :: 0 <= j < |s| ==> s[j].id != f.id
    ensures IndexOfId(s + [f], f.id) == Some(|s|)
  {
    var t := s + [f];
    assert t[|s|] == f;
    assert forall j :: 0 <= j < |s| ==> t[j] == s[j];
  }

  /** Removing an element keeps ids unique, and when ids were unique no other
      element carries the removed one's id. */
  lemma RemoveAtUnique(s: seq<Fantasma>, i: nat)
    requires i < |s| && UniqueIds(s)
    ensures UniqueIds(RemoveAt(s, i))
    ensures forall j :: 0 <= j < |RemoveAt(s, i)| ==> RemoveAt(s, i)[j].id != s[i].id
  {
    var r := RemoveAt(s, i);
    forall a, b | 0 <= a < b < |r|
      ensures r[a].id != r[b].id
    {
      var a' := if a < i then a else a + 1;
      var b' := if b < i then b else b + 1;
      assert r[a] == s[a'] && r[b] == s[b'];
    }
  }

  /** After save(f) with unique ids: ids are still unique, find_by_id(f.id) is f,
      every other id finds what it found before, and the list grew by one
      exactly when the id was new. */
  lemma SaveSpec(s: seq<Fantasma>, f: Fantasma)
    requires UniqueIds(s)
    ensures UniqueIds(Saved(s, f))
    ensures FirstWithId(Saved(s, f), f.id) == Some(f)
    ensures forall id :: id != f.id ==> FirstWithId(Saved(s, f), id) == FirstWithId(s, id)
    ensures |Saved(s, f)| == if FirstWithId(s, f.id).Some? then |s| else |s| + 1
  {
    var t := Saved(s, f);
    match IndexOfId(s, f.id)
    case None =>
      AppendedIsFound(s, f);
      assert UniqueIds(t) by {
        forall a, b | 0 <= a < b < |t| ensures t[a].id != t[b].id {
          if b < |s| { assert t[a] == s[a] && t[b] == s[b]; } else { assert t[a] == s[a]; }
        }
      }
      forall id | id != f.id
        ensures FirstWithId(t, id) == FirstWithId(s, id)
      {
        NotLastSame(s, f, id);
      }
    case Some(i) =>
      RemoveAtUnique(s, i);
      var r := RemoveAt(s, i);
      assert t == r + [f];
      AppendedIsFound(r, f);
      assert UniqueIds(t) by {
        forall a, b | 0 <= a < b < |t| ensures t[a].id != t[b].id {
          if b < |r| { assert t[a] == r[a] && t[b] == r[b]; } else { assert t[a] == r[a]; }
        }
      }
      forall id | id != f.id
        ensures FirstWithId(t, id) == FirstWithId(s, id)
      {
        NotLastSame(r, f, id);
        RemoveOtherId(s, i, id);
      }
  }

  /** Appending an NPC with another id does not change what an id finds. */
  lemma NotLastSame(s: seq<Fantasma>, f: Fantasma, id: int)
    requires f.id != id
    ensures FirstWithId(s + [f], id) == FirstWithId(s, id)
  {
    var t := s + [f];
    match IndexOfId(s, id)
    case None =>
      assert forall j :: 0 <= j < |t| ==> t[j].id != id;
    case Some(i) =>
      assert t[i] == s[i];
      assert IndexOfId(t, id) == Some(i);
  }

  /** Removing the only NPC carrying one id does not change what another id finds. */
  lemma RemoveOtherId(s: seq<Fantasma>, i: nat, id: int)
    requires i < |s| && UniqueIds(s) && s[i].id != id
    ensures FirstWithId(RemoveAt(s, i), id) == FirstWithId(s, id)
  {
    var r := RemoveAt(s, i);
    match IndexOfId(s, id)
    case None =>
      assert forall j :: 0 <= j < |r| ==> r[j].id != id by {
        forall j | 0 <= j < |r| ensures r[j].id != id {
          assert r[j] == s[if j < i then j else j + 1];
        }
      }
    case Some(k) =>
      var k' := if k < i then k else k - 1;
      assert r[k'] == s[k];
      assert forall j :: 0 <= j < k' ==> r[j].id != id by {
        forall j | 0 <= j < k' ensures r[j].id != id {
          assert r[j] == s[if j < i then j else j + 1];
        }
      }
      assert IndexOfId(r, id) == Some(k');
  }

  /** After delete(id) with unique ids: ids are still unique, nothing with that id
      remains, other ids find what they found before, and one element went
      exactly when the id was stored. */
  lemma DeleteSpec(s: seq<Fantasma>, id: int)
    requires UniqueIds(s)
    ensures UniqueIds(Deleted(s, id))
    ensures FirstWithId(Deleted(s, id), id) == None
    ensures forall other :: other != id ==> FirstWithId(Deleted(s, id), other) == FirstWithId(s, other)
    ensures |Deleted(s, id)| == if FirstWithId(s, id).Some? then |s| - 1 else |s|
  {
    match IndexOfId(s, id)
    case None =>
    case Some(i) =>
      RemoveAtUnique(s, i);
      forall other | other != id
        ensures FirstWithId(Deleted(s, id), other) == FirstWithId(s, other)
      {
        RemoveOtherId(s, i, other);
      }
  }

  /** Saving and then deleting the same id leaves no NPC with that id, and
      removes the previously stored one as well. */
  lemma SaveThenDelete(s: seq<Fantasma>, f: Fantasma)
    requires UniqueIds(s)
    ensures FirstWithId(Deleted(Saved(s, f), f.id), f.id) == None
    ensures UniqueIds(Deleted(Saved(s, f), f.id))
    ensures |Deleted(Saved(s, f), f.id)| == if FirstWithId(s, f.id).Some? then |s| - 1 else |s|
  {
    SaveSpec(s, f);
    DeleteSpec(Saved(s, f), f.id);
  }

  class FantasmaRepositoryImpl {
    var fantasmas: seq<Fantasma>

    /** Ids are unique: the only way into the list is save, which replaces by id. */
    predicate Valid()
      reads this
    {
      UniqueIds(fantasmas)
    }

    constructor ()
      ensures fantasmas == [] && Valid()
    {
      fantasmas := [];
    }

    /** find_all: the stored list, in insertion order. */
    function FindAll(): (r: seq<Fantasma>)
      reads this
      ensures r == fantasmas
    {
      fantasmas
    }

    /** find_by_id: the first stored NPC with this id, found by walking the list. */
    method FindById(id: int) returns (r: Option<Fantasma>)
      ensures r == FirstWithId(fantasmas, id)
    {
      var i := 0;
      while i < |fantasmas|
        invariant 0 <= i <= |fantasmas|
        invariant forall j :: 0 <= j < i ==> fantasmas[j].id != id
      {
        if fantasmas[i].id == id {
          assert IndexOfId(fantasmas, id) == Some(i);
          return Some(fantasmas[i]);
        }
        i := i + 1;
      }
      r := None;
    }

    /** save: replace the NPC with the same id, or add a new one; returns its argument. */
    method Save(f: Fantasma) returns (r: Fantasma)
      modifies this
      ensures r == f
      ensures fantasmas == Saved(old(fantasmas), f)
      ensures old(Valid()) ==> Valid() && FirstWithId(fantasmas, f.id) == Some(f)
    {
      var existente := FindById(f.id);
      if existente.Some? {
        var i := IndexOfId(fantasmas, f.id).value;
        fantasmas := RemoveAt(fantasmas, i);
      }
      fantasmas := fantasmas + [f];
      if old(Valid()) {
        SaveSpec(old(fantasmas), f);
      }
      r := f;
    }

    /** delete: True and the NPC removed when the id is stored, otherwise False and no change. */
    method Delete(id: int) returns (removed: bool)
      modifies this
      ensures removed <==> FirstWithId(old(fantasmas), id).Some?
      ensures fantasmas == Deleted(old(fantasmas), id)
      ensures old(Valid()) ==> Valid() && FirstWithId(fantasmas, id) == None
    {
      var fantasma := FindById(id);
      if fantasma.Some? {
        var i := IndexOfId(fantasmas, id).value;
        fantasmas := RemoveAt(fantasmas, i);
        removed := true;
      } else {
        removed := false;
      }
      if old(Valid()) {
        DeleteSpec(old(fantasmas), id);
      }
    }

    /** find_by_tipo: the stored NPCs of that kind, in stored order (Seqs.FilterOrder). */
    function FindByTipo(tipo: string): (r: seq<Fantasma>)
      reads this
      ensures forall i :: 0 <= i < |r| ==> r[i].tipo == tipo && r[i] in fantasmas
      ensures forall i :: 0 <= i < |fantasmas| ==> (fantasmas[i] in r <==> fantasmas[i].tipo == tipo)
    {
      Seqs.Filter(fantasmas, (f: Fantasma) => f.tipo == tipo)
    }

    /** find_by_chunk: the stored NPCs standing on that chunk, in stored order. */
    function FindByChunk(chunkNome: string): (r: seq<Fantasma>)
      reads this
      ensures forall i :: 0 <= i < |r| ==> r[i].chunk == chunkNome && r[i] in fantasmas
      ensures forall i :: 0 <= i < |fantasmas| ==> (fantasmas[i] in r <==> fantasmas[i].chunk == chunkNome)
    {
      Seqs.Filter(fantasmas, (f: Fantasma) => f.chunk == chunkNome)
    }
  }
}
