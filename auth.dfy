/** AuthService: registration and login against the users collection. Neither
    operation catches store failures; registration rejects a taken email, and
    login gives one and the same error for an unknown email and a wrong password. */
module Auth {
  import opened Store

  const CONFLICT := Http(409, "El email ya está registrado")
  const UNAUTHORIZED := Http(401, "Credenciales inválidas")
  const MSG_REGISTERED := "Usuario registrado exitosamente"
  const MSG_LOGIN := "Login exitoso"

  /** bcrypt, left abstract: the hash it stores and the comparison it makes. */
  datatype Bcrypt = Bcrypt(hash: string -> string, compare: (string, string) -> bool)

  /** A password always compares equal to its own hash. */
  ghost predicate Sound(b: Bcrypt) {
    forall pw :: b.compare(pw, b.hash(pw))
  }

  /** The body of POST /auth/register: the season id arrives as text. */
  datatype RegisterDto = RegisterDto(email: string, password: string, nombre: string, rol: string, temporada: string)

  datatype LoginDto = LoginDto(email: string, password: string)

  /** A user as the service returns it: every stored field except the password. */
  datatype PublicUser = PublicUser(id: Id, email: string, nombre: string, rol: string, temporada: Id, emailVerified: bool)

  datatype Reply = Reply(message: string, user: PublicUser)

  function WithoutPassword(d: Doc<Usuario>): PublicUser {
    PublicUser(d.id, d.fields.email, d.fields.nombre, d.fields.rol, d.fields.temporada, d.fields.emailVerified)
  }

  /** findOne({ email }) finds a user: emails compare by exact equality. */
  predicate EmailTaken(us: map<Id, Usuario>, email: string) {
    exists k :: k in us && us[k].email == email
  }

  // ---------------------------------------------------------------------------
  // register

  /** The record register saves: the hash of the password, never the password,
      the season id as the store casts it, and not yet verified. */
  function NewUser(dto: RegisterDto, b: Bcrypt): Usuario
    requires Cast(dto.temporada).Some?
  {
    Usuario(dto.email, b.hash(dto.password), dto.nombre, dto.rol, Cast(dto.temporada).value, false)
  }

  /** The lookup, then the insert under the id the store gives. A taken email
      gives 409 and changes nothing; a store failure in either step, including a
      season id the save cannot cast, reaches the caller raw. A successful
      register inserts exactly one user and returns it without its password. */
  function RegisterOutcome(us: map<Id, Usuario>, dto: RegisterDto, b: Bcrypt, newId: Id,
                           findFails: bool, saveFails: bool)
    : (out: (Result<Reply>, map<Id, Usuario>))
    requires IsObjectId(newId)
    ensures findFails ==> out == (Err(StoreError), us)
    ensures !findFails && EmailTaken(us, dto.email) ==> out == (Err(CONFLICT), us)
    ensures out.0.Ok? <==>
              !findFails && !EmailTaken(us, dto.email) && Cast(dto.temporada).Some? && !saveFails && newId !in us
    ensures out.0.Ok? ==>
              var temporada := Cast(dto.temporada).value;
              out.1 == us[newId := Usuario(dto.email, b.hash(dto.password), dto.nombre, dto.rol, temporada, false)] &&
              |out.1| == |us| + 1
    ensures out.0.Ok? ==>
              var temporada := Cast(dto.temporada).value;
              out.0.value == Reply(MSG_REGISTERED, PublicUser(newId, dto.email, dto.nombre, dto.rol, temporada, false))
    ensures !findFails && !EmailTaken(us, dto.email) && Cast(dto.temporada).None? ==> out == (Err(StoreError), us)
    ensures out.0.Err? ==> out.1 == us
    // only a stored email gives 409; every other failure is the raw store error
    ensures !findFails && !EmailTaken(us, dto.email) && out.0.Err? ==> out.0.error == StoreError
    ensures UniqueEmails(us) ==> UniqueEmails(out.1)
  {
    if findFails then (Err(StoreError), us)
    else if EmailTaken(us, dto.email) then (Err(CONFLICT), us)
    else if Cast(dto.temporada).None? || saveFails || newId in us then (Err(StoreError), us)
    else
      var user := NewUser(dto, b);
      (Ok(Reply(MSG_REGISTERED, WithoutPassword(Doc(newId, user)))), us[newId := user])
  }

  // ---------------------------------------------------------------------------
  // login

  /** The one user with the given email. */
  function UserWithEmail(us: map<Id, Usuario>, email: string): (k: Id)
    requires UniqueEmails(us) && EmailTaken(us, email)
    ensures k in us && us[k].email == email
  {
    var k :| k in us && us[k].email == email; k
  }

  /** login on a snapshot of the users: an unknown email and a wrong password
      give the same 401; a match returns the user without its password. */
  function Login(us: map<Id, Usuario>, dto: LoginDto, b: Bcrypt, findFails: bool): (r: Result<Reply>)
    requires UniqueEmails(us)
    ensures findFails ==> r == Err(StoreError)
    ensures !findFails && !EmailTaken(us, dto.email) ==> r == Err(UNAUTHORIZED)
    ensures r.Ok? <==> !findFails && exists k :: k in us && us[k].email == dto.email && b.compare(dto.password, us[k].password)
    ensures r.Err? && !findFails ==> r.error == UNAUTHORIZED
    ensures r.Ok? ==> r.value.message == MSG_LOGIN
    ensures r.Ok? ==>
              exists k :: k in us && us[k].email == dto.email && r.value.user == WithoutPassword(Doc(k, us[k]))
  {
    if findFails then Err(StoreError)
    else if !EmailTaken(us, dto.email) then Err(UNAUTHORIZED)
    else
      var k := UserWithEmail(us, dto.email);
      if !b.compare(dto.password, us[k].password) then Err(UNAUTHORIZED)
      else Ok(Reply(MSG_LOGIN, WithoutPassword(Doc(k, us[k]))))
  }

  // ---------------------------------------------------------------------------
  // properties relating the two

  /** Right after registering, logging in with the same email and password
      succeeds and returns the user that register returned. */
  lemma LoginAfterRegister(us: map<Id, Usuario>, dto: RegisterDto, b: Bcrypt, newId: Id)
    requires Sound(b) && UniqueEmails(us) && IsObjectId(newId)
    requires RegisterOutcome(us, dto, b, newId, false, false).0.Ok?
    ensures var (reg, us1) := RegisterOutcome(us, dto, b, newId, false, false);
            UniqueEmails(us1) &&
            Login(us1, LoginDto(dto.email, dto.password), b, false) == Ok(Reply(MSG_LOGIN, reg.value.user))
  {
    var (reg, us1) := RegisterOutcome(us, dto, b, newId, false, false);
    assert us1[newId].email == dto.email;
    assert EmailTaken(us1, dto.email);
    var k := UserWithEmail(us1, dto.email);
    assert k == newId;
    assert b.compare(dto.password, b.hash(dto.password));
  }

  /** Once an email is registered, registering it again, with any other
      fields, gives 409. */
  lemma RegisterTwiceConflicts(us: map<Id, Usuario>, dto: RegisterDto, b: Bcrypt, newId: Id,
                                again: RegisterDto, b2: Bcrypt, newId2: Id, saveFails: bool)
    requires IsObjectId(newId) && IsObjectId(newId2)
    requires RegisterOutcome(us, dto, b, newId, false, false).0.Ok?
    requires again.email == dto.email
    ensures var us1 := RegisterOutcome(us, dto, b, newId, false, false).1;
            RegisterOutcome(us1, again, b2, newId2, false, saveFails) == (Err(CONFLICT), us1)
  {
    var us1 := RegisterOutcome(us, dto, b, newId, false, false).1;
    assert newId in us1 && us1[newId].email == again.email;
  }

  /** Right after registering, a password that does not compare equal to the
      stored hash is refused with the same 401 as an unknown email. */
  lemma WrongPasswordAfterRegister(us: map<Id, Usuario>, dto: RegisterDto, b: Bcrypt, newId: Id,
                                    password: string)
    requires UniqueEmails(us) && IsObjectId(newId)
    requires RegisterOutcome(us, dto, b, newId, false, false).0.Ok?
    requires !b.compare(password, b.hash(dto.password))
    ensures var us1 := RegisterOutcome(us, dto, b, newId, false, false).1;
            UniqueEmails(us1) &&
            Login(us1, LoginDto(dto.email, password), b, false) == Err(UNAUTHORIZED)
  {
    var us1 := RegisterOutcome(us, dto, b, newId, false, false).1;
    assert us1[newId].email == dto.email;
    assert EmailTaken(us1, dto.email);
    var k := UserWithEmail(us1, dto.email);
    assert k == newId;
  }

  // ---------------------------------------------------------------------------
  // the service over the database

  class AuthService {
    const db: Database

    constructor (db: Database)
      ensures this.db == db
    {
      this.db := db;
    }

    /** Keeps the unique-email invariant of the users collection. */
    method Register(dto: RegisterDto, b: Bcrypt, newId: Id, findFails: bool, saveFails: bool)
      returns (r: Result<Reply>)
      requires db.Valid() && IsObjectId(newId)
      modifies db`usuarios
      ensures db.Valid()
      ensures (r, db.usuarios) == RegisterOutcome(old(db.usuarios), dto, b, newId, findFails, saveFails)
    {
      // findOne({ email })
      if findFails {
        return Err(StoreError);
      }
      if EmailTaken(db.usuarios, dto.email) {
        return Err(CONFLICT);
      }
      // bcrypt.hash, then new usuarioModel(...).save(), which casts the season id
      if Cast(dto.temporada).None? || saveFails || newId in db.usuarios {
        return Err(StoreError);
      }
      var user := NewUser(dto, b);
      db.usuarios := db.usuarios[newId := user];
      r := Ok(Reply(MSG_REGISTERED, WithoutPassword(Doc(newId, user))));
    }
  }
}
