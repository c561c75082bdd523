/** The document store behind the three services, reduced to what they use:
    the ObjectId cast applied to every id, the records of the three collections,
    what a call can throw, and the catch rule that the id-taking operations of
    the season and recipe services share. */
module Store {

  datatype Option<+T> = None | Some(value: T)

  /** What a service call can throw: the store's cast error for text that is not
      an ObjectId, an HTTP exception carrying its status and message, or any
      other failure of the store (connection lost, duplicate key, validation). */
  datatype Thrown = CastError | Http(status: int, message: string) | StoreError

  /** The value a service call returns, or what it throws instead. */
  datatype Result<+T> = Ok(value: T) | Err(error: Thrown)

  /** A stored document: its ObjectId and its fields. */
  datatype Doc<+T> = Doc(id: Id, fields: T)

  /** An ObjectId as text. The ids the store hands out, and the casts of
      ids given as text, are in canonical form (`IsObjectId`). */
  type Id = string

  predicate IsHexDigit(c: char) {
    '0' <= c <= '9' || 'a' <= c <= 'f' || 'A' <= c <= 'F'
  }

  function LowerHex(c: char): char {
    if 'A' <= c <= 'F' then (c as int - 'A' as int + 'a' as int) as char else c
  }

  /** Canonical form: 24 lower-case hexadecimal digits. */
  predicate IsObjectId(id: Id) {
    |id| == 24 && forall i :: 0 <= i < |id| ==> ('0' <= id[i] <= '9' || 'a' <= id[i] <= 'f')
  }

  /** The cast the store applies to an id given as text (a path parameter, a
      query value or a filter): 24 hexadecimal digits in either case name the
      ObjectId with those digits; anything else cannot be cast. */
  function Cast(s: string): (r: Option<Id>)
    ensures r.Some? <==> |s| == 24 && forall i :: 0 <= i < |s| ==> IsHexDigit(s[i])
    ensures r.Some? ==> IsObjectId(r.value)
    ensures r.Some? ==> forall i :: 0 <= i < |s| ==> r.value[i] == LowerHex(s[i])
  {
    if |s| == 24 && forall i :: 0 <= i < |s| ==> IsHexDigit(s[i])
    then Some(seq(|s|, i requires 0 <= i < |s| => LowerHex(s[i])))
    else None
  }

  /** A canonical id casts to itself, so a stored id given back as text finds
      its own document. */
  lemma CastCanonical(id: Id)
    requires IsObjectId(id)
    ensures Cast(id) == Some(id)
  {
    var r := Cast(id);
    assert r.Some?;
    assert |r.value| == |id|;
    assert forall i :: 0 <= i < |id| ==> r.value[i] == id[i];
    assert r.value == id;
  }

  /** The record of the seasons collection (the creation date is left out). */
  datatype Temporada = Temporada(nombre: string, temporada: int)

  /** The record of the recipes collection (the creation date is left out). */
  datatype Receta = Receta(
    nombre: string,
    descripcion: string,
    ingredientes: seq<string>,
    pasos: seq<string>,
    tiempoPreparacion: Option<int>,
    temporadaId: Id,
    creadoPorId: Option<Id>)

  /** The record of the users collection; `password` holds the bcrypt hash. The
      verification and reset token fields are never written by the services. */
  datatype Usuario = Usuario(
    email: string,
    password: string,
    nombre: string,
    rol: string,
    temporada: Id,
    emailVerified: bool)

  const INVALID_ID := Http(400, "ID inválido")

  /** The catch block of findOne, update and remove in both catalogue services:
      a cast error becomes 400, an HTTP exception is rethrown as it is, and
      anything else becomes 500 with the operation's own message. */
  function Caught(e: Thrown, fallback: string): (r: Thrown)
    ensures r.Http?
    ensures e.CastError? ==> r == INVALID_ID
    ensures e.Http? ==> r == e
    ensures e.StoreError? ==> r.status == 500 && r.message == fallback
  {
    match e
    case CastError => INVALID_ID
    case Http(_, _) => e
    case StoreError => Http(500, fallback)
  }

  /** The unique index on the users' email. */
  predicate UniqueEmails(us: map<Id, Usuario>) {
    forall a, b :: a in us && b in us && us[a].email == us[b].email ==> a == b
  }

  /** The database: one map per collection, from ObjectId to record. */
  class Database {
    var temporadas: map<Id, Temporada>
    var recetas: map<Id, Receta>
    var usuarios: map<Id, Usuario>

    ghost predicate Valid()
      reads this
    {
      UniqueEmails(usuarios)
    }

    constructor ()
      ensures Valid()
      ensures temporadas == map[] && recetas == map[] && usuarios == map[]
    {
      temporadas, recetas, usuarios := map[], map[], map[];
    }
  }
}
