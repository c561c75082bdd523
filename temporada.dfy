/** TemporadaService: create, list, look up and delete seasons. Deleting a
    season first deletes the season, then every recipe of that season, and
    reports how many recipes went. */
module Temporadas {
  import opened Store
  import Recetas

  const NOT_FOUND := Http(404, "Temporada no encontrada")
  const MSG_REMOVED := "Temporada eliminada exitosamente y relacionados"
  const ERR_CREATE := "Error al crear temporada"
  const ERR_FIND_ALL := "Error al buscar temporadas"
  const ERR_FIND_ONE := "Error al buscar temporada"
  const ERR_REMOVE := "Error al eliminar temporada"

  // ---------------------------------------------------------------------------
  // create, findAll, findOne

  /** Saving a new season under the id the store gives it; any failure to save
      becomes 500. */
  function CreateOutcome(ts: map<Id, Temporada>, dto: Temporada, newId: Id, fails: bool)
    : (out: (Result<Doc<Temporada>>, map<Id, Temporada>))
    requires IsObjectId(newId)
    ensures out.0.Ok? <==> !fails && newId !in ts
    ensures out.0.Ok? ==> out.0.value == Doc(newId, dto) && out.1 == ts[newId := dto]
    ensures out.0.Ok? ==> |out.1| == |ts| + 1
    ensures out.0.Err? ==> out.0.error == Http(500, ERR_CREATE) && out.1 == ts
  {
    if fails || newId in ts then (Err(Http(500, ERR_CREATE)), ts)
    else (Ok(Doc(newId, dto)), ts[newId := dto])
  }

  /** Every stored season, or 500. */
  function FindAll(ts: map<Id, Temporada>, fails: bool): (r: Result<map<Id, Temporada>>)
    ensures r.Ok? <==> !fails
    ensures r.Ok? ==> r.value == ts
    ensures r.Err? ==> r.error == Http(500, ERR_FIND_ALL)
  {
    if fails then Err(Http(500, ERR_FIND_ALL)) else Ok(ts)
  }

  /** The stored season, 404 when absent, and the shared catch rule for
      everything thrown. It changes nothing. */
  function FindOne(ts: map<Id, Temporada>, id: string, fails: bool): (r: Result<Doc<Temporada>>)
    ensures Cast(id).None? ==> r == Err(INVALID_ID)
    ensures Cast(id).Some? && fails ==> r == Err(Http(500, ERR_FIND_ONE))
    ensures r.Ok? <==> Cast(id).Some? && !fails && Cast(id).value in ts
    ensures r.Ok? ==> r.value == Doc(Cast(id).value, ts[Cast(id).value])
    ensures Cast(id).Some? && !fails && Cast(id).value !in ts ==> r == Err(NOT_FOUND)
  {
    match Cast(id)
    case None => Err(Caught(CastError, ERR_FIND_ONE))
    case Some(oid) =>
      if fails then Err(Caught(StoreError, ERR_FIND_ONE))
      else if oid !in ts then Err(Caught(NOT_FOUND, ERR_FIND_ONE))
      else Ok(Doc(oid, ts[oid]))
  }

  /** A season just created is found by the id it was given. */
  lemma CreateThenFindOne(ts: map<Id, Temporada>, dto: Temporada, newId: Id)
    requires IsObjectId(newId) && newId !in ts
    ensures FindOne(CreateOutcome(ts, dto, newId, false).1, newId, false) == Ok(Doc(newId, dto))
  {
    CastCanonical(newId);
  }

  // ---------------------------------------------------------------------------
  // remove, with the cascade to recipes

  /** The recipes that belong to season `id`. */
  function Dependents(rs: map<Id, Receta>, id: Id): (ks: set<Id>)
    ensures ks <= rs.Keys
    ensures forall k :: k in rs ==> (k in ks <==> rs[k].temporadaId == id)
  {
    set k | k in rs && rs[k].temporadaId == id
  }

  /** The recipes collection after deleteMany({ temporadaId: id }). */
  function WithoutSeason(rs: map<Id, Receta>, id: Id): (rest: map<Id, Receta>)
    ensures rest.Keys == rs.Keys - Dependents(rs, id)
    ensures forall k :: k in rest ==> rest[k] == rs[k]
  {
    map k | k in rs && rs[k].temporadaId != id :: rs[k]
  }

  /** What a successful remove returns: the deleted season as it was, and the
      store's count of deleted recipes. */
  datatype Removal = Removal(mensaje: string, temporada: Doc<Temporada>, recetasEliminadas: nat)

  /** The two ordered steps of remove on the seasons and recipes collections.
      The season is deleted first; only when it existed does the cascade run,
      and when the cascade fails the season stays deleted. */
  function RemoveOutcome(ts: map<Id, Temporada>, rs: map<Id, Receta>, id: string,
                         deleteFails: bool, cascadeFails: bool)
    : (out: (Result<Removal>, map<Id, Temporada>, map<Id, Receta>))
    ensures Cast(id).None? ==> out == (Err(INVALID_ID), ts, rs)
    ensures Cast(id).Some? && deleteFails ==> out == (Err(Http(500, ERR_REMOVE)), ts, rs)
    ensures Cast(id).Some? && !deleteFails && Cast(id).value !in ts ==> out == (Err(NOT_FOUND), ts, rs)
    ensures Cast(id).Some? && !deleteFails && Cast(id).value in ts && cascadeFails ==>
              out == (Err(Http(500, ERR_REMOVE)), ts - {Cast(id).value}, rs)
    ensures out.0.Ok? <==> Cast(id).Some? && !deleteFails && Cast(id).value in ts && !cascadeFails
    ensures out.0.Ok? ==>
              var oid := Cast(id).value;
              out.0.value.mensaje == MSG_REMOVED &&
              out.0.value.temporada == Doc(oid, ts[oid]) &&
              out.0.value.recetasEliminadas == |Dependents(rs, oid)| &&
              out.1 == ts - {oid}
    // no orphans: no remaining recipe names the deleted season
    ensures out.0.Ok? ==> forall k :: k in out.2 ==> out.2[k].temporadaId != Cast(id).value
    // nothing else touched: the recipes of other seasons stay as they were
    ensures out.0.Ok? ==> out.2.Keys <= rs.Keys
    ensures out.0.Ok? ==>
              forall k :: k in rs && rs[k].temporadaId != Cast(id).value ==> k in out.2 && out.2[k] == rs[k]
    // exactly the deleteMany: the recipes collection is that of the store's filter
    ensures out.0.Ok? ==> out.2 == WithoutSeason(rs, Cast(id).value)
  {
    match Cast(id)
    case None => (Err(Caught(CastError, ERR_REMOVE)), ts, rs)
    case Some(oid) =>
      if deleteFails then (Err(Caught(StoreError, ERR_REMOVE)), ts, rs)
      else if oid !in ts then (Err(Caught(NOT_FOUND, ERR_REMOVE)), ts, rs)
      else
        var ts1 := ts - {oid};
        if cascadeFails then (Err(Caught(StoreError, ERR_REMOVE)), ts1, rs)
        else (Ok(Removal(MSG_REMOVED, Doc(oid, ts[oid]), |Dependents(rs, oid)|)), ts1, WithoutSeason(rs, oid))
  }

  /** deleteMany splits the collection: the recipes it deletes and the recipes
      it keeps together make up the collection before. */
  lemma SplitCount(rs: map<Id, Receta>, oid: Id)
    ensures |Dependents(rs, oid)| + |WithoutSeason(rs, oid)| == |rs|
  {
    var gone := Dependents(rs, oid);
    var kept := WithoutSeason(rs, oid).Keys;
    assert rs.Keys == kept + gone;
    assert kept !! gone;
    assert |rs.Keys| == |kept| + |gone|;
  }

  /** The count reported is exactly the number of recipes the cascade took out
      of the collection. */
  lemma CascadeCount(ts: map<Id, Temporada>, rs: map<Id, Receta>, id: string)
    requires RemoveOutcome(ts, rs, id, false, false).0.Ok?
    ensures var (r, _, rs1) := RemoveOutcome(ts, rs, id, false, false);
            r.value.recetasEliminadas + |rs1| == |rs|
  {
    SplitCount(rs, Cast(id).value);
  }

  /** After a successful remove, listing the recipes of that season finds none. */
  lemma CascadeLeavesNoRecipes(ts: map<Id, Temporada>, rs: map<Id, Receta>, us: map<Id, Usuario>,
                                 id: string, engine: Recetas.RegexEngine)
    requires RemoveOutcome(ts, rs, id, false, false).0.Ok?
    ensures var rs1 := RemoveOutcome(ts, rs, id, false, false).2;
            Recetas.FindAll(rs1, us, Recetas.Filtros(None, None, None, Some(id)), engine, false) == Ok(map[])
  {
    var rs1 := RemoveOutcome(ts, rs, id, false, false).2;
    var f := Recetas.Filtros(None, None, None, Some(id));
    assert Recetas.Given(f.temporadaId);
    var r := Recetas.FindAll(rs1, us, f, engine, false);
    assert r.Ok?;
    forall k | k in rs1 ensures k !in r.value {
      assert rs1[k].temporadaId != Cast(id).value;
      assert !Recetas.Wanted(f, rs1[k], engine);
    }
    assert r.value.Keys == {};
  }

  /** Removing a season that was just created takes it out again, with every
      recipe that referred to its id. */
  lemma CreateThenRemove(ts: map<Id, Temporada>, rs: map<Id, Receta>, dto: Temporada, newId: Id)
    requires IsObjectId(newId) && newId !in ts
    ensures var (c, ts1) := CreateOutcome(ts, dto, newId, false);
            var (r, ts2, rs2) := RemoveOutcome(ts1, rs, newId, false, false);
            c.Ok? && r.Ok? && r.value.temporada == Doc(newId, dto) && ts2 == ts &&
            rs2 == WithoutSeason(rs, newId)
  {
    CastCanonical(newId);
    var (c, ts1) := CreateOutcome(ts, dto, newId, false);
    assert ts1 - {newId} == ts;
  }

  /** A recipe created with a season id, in whichever case its hexadecimal
      digits were written, is counted and deleted by the removal of that season:
      both ids reach the store in their cast form. */
  lemma CreatedRecipeFollowsSeason(ts: map<Id, Temporada>, rs: map<Id, Receta>,
                                   dto: Recetas.CreateRecetaDto, newId: Id, id: string)
    requires IsObjectId(newId) && Recetas.CreateOutcome(rs, dto, newId, false).0.Ok?
    requires Cast(id) == Cast(dto.temporadaId) && Cast(id).value in ts
    ensures var rs1 := Recetas.CreateOutcome(rs, dto, newId, false).1;
            var (r, _, rs2) := RemoveOutcome(ts, rs1, id, false, false);
            r.Ok? && newId in Dependents(rs1, Cast(id).value) && newId !in rs2 &&
            r.value.recetasEliminadas == |Dependents(rs, Cast(id).value)| + 1
  {
    var oid := Cast(id).value;
    var rs1 := Recetas.CreateOutcome(rs, dto, newId, false).1;
    assert Dependents(rs1, oid) == Dependents(rs, oid) + {newId};
  }

  /** After a successful remove, looking the season up gives 404. */
  lemma RemoveThenFindOne(ts: map<Id, Temporada>, rs: map<Id, Receta>, id: string, cascadeFails: bool)
    requires Cast(id).Some? && Cast(id).value in ts
    ensures FindOne(RemoveOutcome(ts, rs, id, false, cascadeFails).1, id, false) == Err(NOT_FOUND)
  {
  }

  // ---------------------------------------------------------------------------
  // the service over the database

  class TemporadaService {
    const db: Database

    constructor (db: Database)
      ensures this.db == db
    {
      this.db := db;
    }

    method Create(dto: Temporada, newId: Id, fails: bool) returns (r: Result<Doc<Temporada>>)
      requires IsObjectId(newId)
      modifies db`temporadas
      ensures (r, db.temporadas) == CreateOutcome(old(db.temporadas), dto, newId, fails)
    {
      if fails || newId in db.temporadas {
        return Err(Http(500, ERR_CREATE));
      }
      db.temporadas := db.temporadas[newId := dto];
      r := Ok(Doc(newId, dto));
    }

    /** The season is deleted, then the recipes; the two steps are not undone
      together. */
    method Remove(id: string, deleteFails: bool, cascadeFails: bool) returns (r: Result<Removal>)
      modifies db`temporadas, db`recetas
      ensures (r, db.temporadas, db.recetas) ==
              RemoveOutcome(old(db.temporadas), old(db.recetas), id, deleteFails, cascadeFails)
    {
      // findByIdAndDelete(id)
      var oid := Cast(id);
      if oid.None? {
        return Err(Caught(CastError, ERR_REMOVE));
      }
      if deleteFails {
        return Err(Caught(StoreError, ERR_REMOVE));
      }
      if oid.value !in db.temporadas {
        return Err(Caught(NOT_FOUND, ERR_REMOVE));
      }
      var temporada := Doc(oid.value, db.temporadas[oid.value]);
      db.temporadas := db.temporadas - {oid.value};
      // deleteMany({ temporadaId: id })
      if cascadeFails {
        return Err(Caught(StoreError, ERR_REMOVE));
      }
      var deletedCount := |Dependents(db.recetas, oid.value)|;
      db.recetas := WithoutSeason(db.recetas, oid.value);
      r := Ok(Removal(MSG_REMOVED, temporada, deletedCount));
    }
  }
}
