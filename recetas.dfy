/** RecetasService: create, list with filters, look up, update and delete
    recipes. Listing builds a query object from the optional filters; the
    id-taking operations classify what they throw with the shared catch rule. */
module Recetas {
  import opened Store

  const NOT_FOUND := Http(404, "Receta no encontrada")
  const UPDATE_NOT_FOUND := Http(404, "ID no encontrado")
  const MSG_REMOVED := "Receta eliminada exitosamente"
  const ERR_FIND_ALL := "Error al buscar recetas"
  /** The 500 text of findOne, which update uses as well. */
  const ERR_FIND_ONE := "Error al buscar receta"
  const ERR_REMOVE := "Error al eliminar receta"

  // ---------------------------------------------------------------------------
  // create

  /** The body of POST /recetas: the reference ids arrive as text. */
  datatype CreateRecetaDto = CreateRecetaDto(
    nombre: string,
    descripcion: string,
    ingredientes: seq<string>,
    pasos: seq<string>,
    tiempoPreparacion: Option<int>,
    temporadaId: string,
    creadoPorId: Option<string>)

  /** The store can cast the ids of the new recipe. */
  predicate CreateCasts(dto: CreateRecetaDto) {
    Cast(dto.temporadaId).Some? &&
    (dto.creadoPorId.Some? ==> Cast(dto.creadoPorId.value).Some?)
  }

  /** The record the store saves: the ids in their cast form. */
  function ToReceta(dto: CreateRecetaDto): Receta
    requires CreateCasts(dto)
  {
    Receta(dto.nombre, dto.descripcion, dto.ingredientes, dto.pasos, dto.tiempoPreparacion,
           Cast(dto.temporadaId).value,
           if dto.creadoPorId.Some? then Cast(dto.creadoPorId.value) else None)
  }

  /** Saving a new recipe: the store gives it `newId`; a failed save (store
      down, a duplicate key, or an id it cannot cast into its ObjectId field) is
      not caught, so the raw error reaches the caller. Nothing checks that the
      recipe's season exists. */
  function CreateOutcome(rs: map<Id, Receta>, dto: CreateRecetaDto, newId: Id, fails: bool)
    : (out: (Result<Doc<Receta>>, map<Id, Receta>))
    requires IsObjectId(newId)
    ensures out.0.Ok? <==> CreateCasts(dto) && !fails && newId !in rs
    ensures out.0.Ok? ==> out.1 == rs[newId := out.0.value.fields] && out.0.value.id == newId
    ensures out.0.Ok? ==> |out.1| == |rs| + 1
    // the record holds the given fields, with the ids as the store casts them
    ensures out.0.Ok? ==>
              var rec := out.0.value.fields;
              rec.nombre == dto.nombre && rec.descripcion == dto.descripcion &&
              rec.ingredientes == dto.ingredientes && rec.pasos == dto.pasos &&
              rec.tiempoPreparacion == dto.tiempoPreparacion &&
              Some(rec.temporadaId) == Cast(dto.temporadaId) &&
              (dto.creadoPorId.None? ==> rec.creadoPorId.None?) &&
              (dto.creadoPorId.Some? ==> rec.creadoPorId == Cast(dto.creadoPorId.value))
    ensures out.0.Err? ==> out.0.error == StoreError && out.1 == rs
  {
    if !CreateCasts(dto) || fails || newId in rs then (Err(StoreError), rs)
    else (Ok(Doc(newId, ToReceta(dto))), rs[newId := ToReceta(dto)])
  }

  // ---------------------------------------------------------------------------
  // findAll

  /** The optional query-string filters of GET /recetas. */
  datatype Filtros = Filtros(
    creadoPorId: Option<string>,
    rol: Option<string>,
    ingrediente: Option<string>,
    temporadaId: Option<string>)

  /** JavaScript truthiness of an optional text: absent and "" are both false. */
  predicate Given(o: Option<string>) {
    o.Some? && o.value != ""
  }

  /** A regular expression as the store receives it: the pattern text, unescaped,
      and its option letters. */
  datatype Regex = Regex(pattern: string, options: string)

  /** The query object; it has no key for the role. */
  datatype QueryReceta = QueryReceta(
    creadoPorId: Option<string>,
    ingredientes: Option<Regex>,
    temporadaId: Option<string>)

  /** The store's regular-expression engine, left abstract: whether a pattern
      compiles, and whether a regex matches a text. */
  datatype RegexEngine = RegexEngine(compiles: string -> bool, matches: (Regex, string) -> bool)

  /** The query findAll builds, one conditional field at a time: a key is set
      exactly when its filter is a non-empty text, the ingredient becomes a
      case-insensitive pattern, and the role never becomes a key. */
  function BuildQuery(f: Filtros): (q: QueryReceta)
    ensures q.creadoPorId.Some? <==> Given(f.creadoPorId)
    ensures q.creadoPorId.Some? ==> q.creadoPorId == f.creadoPorId
    ensures q.ingredientes.Some? <==> Given(f.ingrediente)
    ensures q.ingredientes.Some? ==> q.ingredientes.value == Regex(f.ingrediente.value, "i")
    ensures q.temporadaId.Some? <==> Given(f.temporadaId)
    ensures q.temporadaId.Some? ==> q.temporadaId == f.temporadaId
    ensures !Given(f.creadoPorId) && !Given(f.ingrediente) && !Given(f.temporadaId) ==>
              q == QueryReceta(None, None, None)
  {
    var q := QueryReceta(None, None, None);
    var q := if Given(f.creadoPorId) then q.(creadoPorId := f.creadoPorId) else q;
    var q := if Given(f.ingrediente) then q.(ingredientes := Some(Regex(f.ingrediente.value, "i"))) else q;
    var q := if Given(f.temporadaId) then q.(temporadaId := f.temporadaId) else q;
    q
  }

  /** The store can run the query: its ids cast and its pattern compiles. */
  predicate Runnable(q: QueryReceta, engine: RegexEngine) {
    (q.creadoPorId.Some? ==> Cast(q.creadoPorId.value).Some?) &&
    (q.temporadaId.Some? ==> Cast(q.temporadaId.value).Some?) &&
    (q.ingredientes.Some? ==> engine.compiles(q.ingredientes.value.pattern))
  }

  /** The store's matching of one recipe against a runnable query: equality on
      the cast ids, and a regex on the ingredient array matches when it matches
      some element. */
  predicate Satisfies(q: QueryReceta, r: Receta, engine: RegexEngine) {
    (q.creadoPorId.Some? ==> r.creadoPorId == Cast(q.creadoPorId.value)) &&
    (q.ingredientes.Some? ==>
       exists i :: 0 <= i < |r.ingredientes| && engine.matches(q.ingredientes.value, r.ingredientes[i])) &&
    (q.temporadaId.Some? ==> Some(r.temporadaId) == Cast(q.temporadaId.value))
  }

  /** The listing contract stated on the filters themselves: every filter given
      constrains the recipe, they combine with AND, an absent or empty filter
      constrains nothing, and the role constrains nothing. */
  predicate Wanted(f: Filtros, r: Receta, engine: RegexEngine) {
    (Given(f.creadoPorId) ==> r.creadoPorId == Cast(f.creadoPorId.value)) &&
    (Given(f.ingrediente) ==>
       exists i :: 0 <= i < |r.ingredientes| && engine.matches(Regex(f.ingrediente.value, "i"), r.ingredientes[i])) &&
    (Given(f.temporadaId) ==> Some(r.temporadaId) == Cast(f.temporadaId.value))
  }

  /** A listed recipe with its creator expanded, or None when the creator is
      absent or does not have the role asked for. */
  datatype Listed = Listed(receta: Receta, creador: Option<Usuario>)

  /** The creator expansion: the role filter only decides whether the creator
      is shown. */
  function Creator(rol: Option<string>, us: map<Id, Usuario>, r: Receta): (c: Option<Usuario>)
    ensures c.Some? <==> r.creadoPorId.Some? && r.creadoPorId.value in us &&
                         (Given(rol) ==> us[r.creadoPorId.value].rol == rol.value)
    ensures c.Some? ==> c.value == us[r.creadoPorId.value]
  {
    if r.creadoPorId.Some? && r.creadoPorId.value in us &&
       (!Given(rol) || us[r.creadoPorId.value].rol == rol.value)
    then Some(us[r.creadoPorId.value])
    else None
  }

  /** findAll on a snapshot of the recipes and users: every failure (an id
      filter that does not cast, a pattern that does not compile, the store
      down) becomes 500; otherwise exactly the recipes the filters want. */
  function FindAll(rs: map<Id, Receta>, us: map<Id, Usuario>, f: Filtros, engine: RegexEngine, fails: bool)
    : (r: Result<map<Id, Listed>>)
    ensures r.Err? <==> fails || !Runnable(BuildQuery(f), engine)
    ensures r.Err? ==> r.error == Http(500, ERR_FIND_ALL)
    ensures r.Ok? ==> r.value.Keys <= rs.Keys
    ensures r.Ok? ==> forall k :: k in rs ==> (k in r.value <==> Wanted(f, rs[k], engine))
    ensures r.Ok? ==> forall k :: k in r.value ==> r.value[k] == Listed(rs[k], Creator(f.rol, us, rs[k]))
  {
    var q := BuildQuery(f);
    if fails || !Runnable(q, engine) then Err(Http(500, ERR_FIND_ALL))
    else
      assert forall k :: k in rs ==> (Satisfies(q, rs[k], engine) <==> Wanted(f, rs[k], engine));
      Ok(map k | k in rs && Satisfies(q, rs[k], engine) :: Listed(rs[k], Creator(f.rol, us, rs[k])))
  }

  /** With no filter given, every recipe is listed. */
  lemma NoFiltersListsAll(rs: map<Id, Receta>, us: map<Id, Usuario>, rol: Option<string>, engine: RegexEngine)
    ensures FindAll(rs, us, Filtros(None, rol, None, None), engine, false).Ok?
    ensures FindAll(rs, us, Filtros(None, rol, None, None), engine, false).value.Keys == rs.Keys
  {
    var r := FindAll(rs, us, Filtros(None, rol, None, None), engine, false);
    assert r.Ok?;
    assert forall k :: k in rs ==> k in r.value;
  }

  /** The role filter never changes which recipes are listed, only which
      creators are shown. */
  lemma RolDoesNotFilter(rs: map<Id, Receta>, us: map<Id, Usuario>, f: Filtros, rol: Option<string>, engine: RegexEngine)
    requires FindAll(rs, us, f, engine, false).Ok?
    ensures FindAll(rs, us, f.(rol := rol), engine, false).Ok?
    ensures FindAll(rs, us, f.(rol := rol), engine, false).value.Keys == FindAll(rs, us, f, engine, false).value.Keys
  {
    var a := FindAll(rs, us, f, engine, false);
    var b := FindAll(rs, us, f.(rol := rol), engine, false);
    assert b.Ok?;
    assert forall k :: k in a.value <==> k in b.value;
  }

  // ---------------------------------------------------------------------------
  // findOne

  /** findOne on a snapshot: the stored recipe, 404 when absent, and the shared
      catch rule for everything thrown. It changes nothing. */
  function FindOne(rs: map<Id, Receta>, id: string, fails: bool): (r: Result<Doc<Receta>>)
    ensures Cast(id).None? ==> r == Err(INVALID_ID)
    ensures Cast(id).Some? && fails ==> r == Err(Http(500, ERR_FIND_ONE))
    ensures r.Ok? <==> Cast(id).Some? && !fails && Cast(id).value in rs
    ensures r.Ok? ==> r.value == Doc(Cast(id).value, rs[Cast(id).value])
    ensures Cast(id).Some? && !fails && Cast(id).value !in rs ==> r == Err(NOT_FOUND)
  {
    match Cast(id)
    case None => Err(Caught(CastError, ERR_FIND_ONE))
    case Some(oid) =>
      if fails then Err(Caught(StoreError, ERR_FIND_ONE))
      else if oid !in rs then Err(Caught(NOT_FOUND, ERR_FIND_ONE))
      else Ok(Doc(oid, rs[oid]))
  }

  // ---------------------------------------------------------------------------
  // update

  /** The body of PATCH /recetas/:id: every field optional, ids as text. */
  datatype UpdateRecetaDto = UpdateRecetaDto(
    nombre: Option<string>,
    descripcion: Option<string>,
    ingredientes: Option<seq<string>>,
    pasos: Option<seq<string>>,
    tiempoPreparacion: Option<int>,
    temporadaId: Option<string>,
    creadoPorId: Option<string>)

  /** The store can cast the ids the update sets. */
  predicate PatchCasts(p: UpdateRecetaDto) {
    (p.temporadaId.Some? ==> Cast(p.temporadaId.value).Some?) &&
    (p.creadoPorId.Some? ==> Cast(p.creadoPorId.value).Some?)
  }

  function Pick<T>(given: Option<T>, kept: T): T {
    if given.Some? then given.value else kept
  }

  /** The record after setting the fields the update gives. */
  function Patch(r: Receta, p: UpdateRecetaDto): Receta
    requires PatchCasts(p)
  {
    Receta(
      Pick(p.nombre, r.nombre),
      Pick(p.descripcion, r.descripcion),
      Pick(p.ingredientes, r.ingredientes),
      Pick(p.pasos, r.pasos),
      if p.tiempoPreparacion.Some? then p.tiempoPreparacion else r.tiempoPreparacion,
      if p.temporadaId.Some? then Cast(p.temporadaId.value).value else r.temporadaId,
      if p.creadoPorId.Some? then Cast(p.creadoPorId.value) else r.creadoPorId)
  }

  /** An update that gives no field leaves the recipe as it is. */
  lemma PatchNothing(r: Receta)
    ensures Patch(r, UpdateRecetaDto(None, None, None, None, None, None, None)) == r
  {
  }

  /** Applying the same update twice is applying it once. */
  lemma PatchIdempotent(r: Receta, p: UpdateRecetaDto)
    requires PatchCasts(p)
    ensures Patch(Patch(r, p), p) == Patch(r, p)
  {
  }

  /** findByIdAndUpdate with `new: true`: the path id and the ids in the body
      are cast first (400 when one does not), a missing recipe gives 404 with
      its own message, and the result is the record after the update. Only that
      recipe changes. */
  function UpdateOutcome(rs: map<Id, Receta>, id: string, p: UpdateRecetaDto, fails: bool)
    : (out: (Result<Doc<Receta>>, map<Id, Receta>))
    ensures Cast(id).None? || !PatchCasts(p) ==> out == (Err(INVALID_ID), rs)
    ensures Cast(id).Some? && PatchCasts(p) && fails ==> out == (Err(Http(500, ERR_FIND_ONE)), rs)
    ensures Cast(id).Some? && PatchCasts(p) && !fails && Cast(id).value !in rs ==>
              out == (Err(UPDATE_NOT_FOUND), rs)
    ensures out.0.Ok? <==> Cast(id).Some? && PatchCasts(p) && !fails && Cast(id).value in rs
    ensures out.0.Ok? ==>
              var oid := Cast(id).value;
              out.1.Keys == rs.Keys &&
              out.1[oid] == Patch(rs[oid], p) &&
              out.0.value == Doc(oid, out.1[oid]) &&
              forall k :: k in rs && k != oid ==> out.1[k] == rs[k]
  {
    match Cast(id)
    case None => (Err(Caught(CastError, ERR_FIND_ONE)), rs)
    case Some(oid) =>
      if !PatchCasts(p) then (Err(Caught(CastError, ERR_FIND_ONE)), rs)
      else if fails then (Err(Caught(StoreError, ERR_FIND_ONE)), rs)
      else if oid !in rs then (Err(Caught(UPDATE_NOT_FOUND, ERR_FIND_ONE)), rs)
      else
        var updated := Patch(rs[oid], p);
        (Ok(Doc(oid, updated)), rs[oid := updated])
  }

  // ---------------------------------------------------------------------------
  // remove

  /** What a successful remove returns. */
  datatype Removal = Removal(mensaje: string, receta: Doc<Receta>)

  /** findByIdAndDelete: exactly that recipe goes, and the reply carries the
      deleted record; a missing recipe gives 404 and changes nothing. */
  function RemoveOutcome(rs: map<Id, Receta>, id: string, fails: bool): (out: (Result<Removal>, map<Id, Receta>))
    ensures Cast(id).None? ==> out == (Err(INVALID_ID), rs)
    ensures Cast(id).Some? && fails ==> out == (Err(Http(500, ERR_REMOVE)), rs)
    ensures Cast(id).Some? && !fails && Cast(id).value !in rs ==> out == (Err(NOT_FOUND), rs)
    ensures out.0.Ok? <==> Cast(id).Some? && !fails && Cast(id).value in rs
    ensures out.0.Ok? ==>
              var oid := Cast(id).value;
              out.0.value == Removal(MSG_REMOVED, Doc(oid, rs[oid])) &&
              out.1 == rs - {oid} && |out.1| == |rs| - 1
  {
    match Cast(id)
    case None => (Err(Caught(CastError, ERR_REMOVE)), rs)
    case Some(oid) =>
      if fails then (Err(Caught(StoreError, ERR_REMOVE)), rs)
      else if oid !in rs then (Err(Caught(NOT_FOUND, ERR_REMOVE)), rs)
      else (Ok(Removal(MSG_REMOVED, Doc(oid, rs[oid]))), rs - {oid})
  }

  /** A recipe created and then removed through the id it was given leaves the
      collection as it was, and the reply carries the record that was created. */
  lemma CreateThenRemove(rs: map<Id, Receta>, dto: CreateRecetaDto, newId: Id)
    requires IsObjectId(newId) && newId !in rs && CreateCasts(dto)
    ensures var (c, rs1) := CreateOutcome(rs, dto, newId, false);
            c.Ok? &&
            RemoveOutcome(rs1, newId, false) == (Ok(Removal(MSG_REMOVED, c.value)), rs)
  {
    CastCanonical(newId);
    var (c, rs1) := CreateOutcome(rs, dto, newId, false);
    assert rs1 - {newId} == rs;
  }

  /** After a successful update, looking the recipe up returns what the update
      returned. */
  lemma UpdateThenFindOne(rs: map<Id, Receta>, id: string, p: UpdateRecetaDto)
    requires UpdateOutcome(rs, id, p, false).0.Ok?
    ensures var (u, rs1) := UpdateOutcome(rs, id, p, false);
            FindOne(rs1, id, false) == u
  {
  }

  /** After a successful remove, looking the recipe up gives 404. */
  lemma RemoveThenFindOne(rs: map<Id, Receta>, id: string)
    requires RemoveOutcome(rs, id, false).0.Ok?
    ensures FindOne(RemoveOutcome(rs, id, false).1, id, false) == Err(NOT_FOUND)
  {
  }

  // ---------------------------------------------------------------------------
  // the service over the database

  class RecetasService {
    const db: Database

    constructor (db: Database)
      ensures this.db == db
    {
      this.db := db;
    }

    method Create(dto: CreateRecetaDto, newId: Id, fails: bool) returns (r: Result<Doc<Receta>>)
      requires IsObjectId(newId)
      modifies db`recetas
      ensures (r, db.recetas) == CreateOutcome(old(db.recetas), dto, newId, fails)
    {
      // new recetaModel(dto).save(), with no try/catch around it
      if !CreateCasts(dto) || fails || newId in db.recetas {
        return Err(StoreError);
      }
      var receta := ToReceta(dto);
      db.recetas := db.recetas[newId := receta];
      r := Ok(Doc(newId, receta));
    }

    method Update(id: string, p: UpdateRecetaDto, fails: bool) returns (r: Result<Doc<Receta>>)
      modifies db`recetas
      ensures (r, db.recetas) == UpdateOutcome(old(db.recetas), id, p, fails)
    {
      var oid := Cast(id);
      if oid.None? || !PatchCasts(p) {
        return Err(Caught(CastError, ERR_FIND_ONE));
      }
      if fails {
        return Err(Caught(StoreError, ERR_FIND_ONE));
      }
      if oid.value !in db.recetas {
        return Err(Caught(UPDATE_NOT_FOUND, ERR_FIND_ONE));
      }
      var updated := Patch(db.recetas[oid.value], p);
      db.recetas := db.recetas[oid.value := updated];
      r := Ok(Doc(oid.value, updated));
    }

    method Remove(id: string, fails: bool) returns (r: Result<Removal>)
      modifies db`recetas
      ensures (r, db.recetas) == RemoveOutcome(old(db.recetas), id, fails)
    {
      var oid := Cast(id);
      if oid.None? {
        return Err(Caught(CastError, ERR_REMOVE));
      }
      if fails {
        return Err(Caught(StoreError, ERR_REMOVE));
      }
      if oid.value !in db.recetas {
        return Err(Caught(NOT_FOUND, ERR_REMOVE));
      }
      var busqueda := Doc(oid.value, db.recetas[oid.value]);
      db.recetas := db.recetas - {oid.value};
      r := Ok(Removal(MSG_REMOVED, busqueda));
    }
  }
}
