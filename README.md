# masterchef-api service layer in Dafny

A model of the three service classes of the masterchef-api backend, which
manages cooking-competition seasons (`Temporada`), their recipes (`Receta`)
and user accounts (`Usuario`) in a MongoDB database through Mongoose.

- `store.dfy` (module `Store`): the database as one map per collection, from
  ObjectId to record (`class Database`); the ObjectId cast applied to every id
  given as text; what a call can throw (`Thrown`: a cast error, an HTTP
  exception, any other store failure); and the catch rule (`Caught`) shared by
  `findOne`, `update` and `remove` of both catalogue services.
- `temporada.dfy` (module `Temporadas`): `TemporadaService` — create, list,
  look up, and the two-step delete that removes a season and then every recipe
  of that season, reporting the count.
- `recetas.dfy` (module `Recetas`): `RecetasService` — create, the filtered
  listing (query built from optional filters, role used only for the creator
  expansion), look up, update and delete.
- `auth.dfy` (module `Auth`): `AuthService` — register (email uniqueness,
  password hashing, insert, password stripped from the reply) and login
  (lookup, hash comparison, one uniform 401).

Each state-changing operation is a method of its service class working on the
shared `Database`, proved equal to a pure `…Outcome` function of the old
collections and the inputs; the properties are proved about those functions.
Read-only operations (`FindOne`, `FindAll`, `Login`) are pure functions of a
snapshot of the collections, so they change nothing by construction.

Things outside the program are parameters: each store call can fail
(`fails`, `deleteFails`, `cascadeFails`, `findFails`, `saveFails`), a new
document's ObjectId is `newId` (a clash with a stored id is a failed save),
bcrypt is `Auth.Bcrypt` (a hash and a compare function, with `Auth.Sound`
saying that a password compares equal to its own hash), and the store's
regular-expression engine is `Recetas.RegexEngine` (whether a pattern compiles,
whether a regex matches a text).

Two behaviours of the code worth noting: creating a recipe does not check that
its season exists, and the `rol` filter of the recipe listing does not restrict
which recipes are listed — it only decides whether each recipe's creator is
expanded (`Recetas.RolDoesNotFilter`).

Reference ids in request bodies (a recipe's season and creator, a user's
season) arrive as text and are stored in the store's cast form, so upper-case
hexadecimal digits name the same ObjectId as lower-case ones. In create and
register an id the store cannot cast makes the save fail, and the failure
reaches the caller raw; in the body of an update it gives 400 'ID inválido'
through the catch rule (`Recetas.UpdateOutcome`). The ids the store hands out
for new documents (`newId`) are always in canonical form.

## Model

| member | source | states |
|---|---|---|
| `Store.Cast` | src/recetas/recetas.service.ts:59-63 | an id given as text casts exactly when it is 24 hexadecimal digits, to the lower-case ObjectId with those digits; anything else is a cast error |
| `Store.CastCanonical` | src/recetas/recetas.service.ts:59-63 | a stored ObjectId given back as text casts to itself, so it finds its own document |
| `Store.Caught` | src/recetas/recetas.service.ts:72-80 | the shared catch rule: a cast error becomes 400 'ID inválido', an HTTP exception passes through unchanged, anything else becomes 500 with the operation's message; the result is always an HTTP error |
| `Temporadas.CreateOutcome` | src/temporada/temporada.service.ts:17-24 | create succeeds exactly when the save succeeds, adds exactly one season with the given fields and returns it; any failure is 500 'Error al crear temporada' and changes nothing |
| `Temporadas.TemporadaService.Create` | src/temporada/temporada.service.ts:17-24 | the method's new seasons collection and result are those of `CreateOutcome`; it touches no other collection |
| `Temporadas.CreateThenFindOne` | src/temporada/temporada.service.ts:17-53 | a season just created is found by the id the store gave it |
| `Temporadas.FindAll` | src/temporada/temporada.service.ts:26-32 | returns every stored season, or 500 'Error al buscar temporadas' when the store fails |
| `Temporadas.FindOne` | src/temporada/temporada.service.ts:34-53 | returns the stored season for an existing id; 404 'Temporada no encontrada' when absent; 400 for an id that does not cast; 500 'Error al buscar temporada' on a store failure |
| `Temporadas.RemoveOutcome` | src/temporada/temporada.service.ts:55-84 | a missing season gives 404 and deletes no recipe; a malformed id gives 400; success exactly when the season exists and both steps succeed, then the season is gone, no remaining recipe names it, recipes of other seasons are untouched (the recipes left are exactly those the `deleteMany` filter keeps), the reply carries the season as it was, the message 'Temporada eliminada exitosamente y relacionados' and the number of recipes of that season; a failed cascade gives 500 and leaves the season deleted |
| `Temporadas.TemporadaService.Remove` | src/temporada/temporada.service.ts:55-84 | the method deletes the season and then the recipes in two steps, ending in the state and result of `RemoveOutcome`; it touches neither the users nor anything else |
| `Temporadas.SplitCount` | src/temporada/temporada.service.ts:65-67 | the recipes deleteMany removes and the recipes it keeps together make up the collection before |
| `Temporadas.CascadeCount` | src/temporada/temporada.service.ts:65-73 | `recetasEliminadas` plus the recipes left equals the recipes before: the count is exactly what the cascade removed |
| `Temporadas.CascadeLeavesNoRecipes` | src/temporada/temporada.service.ts:65-67 | after a successful remove, listing recipes filtered by that season id returns nothing |
| `Temporadas.CreateThenRemove` | src/temporada/temporada.service.ts:17-24 | removing a season just created restores the seasons collection and removes every recipe that named its id |
| `Temporadas.CreatedRecipeFollowsSeason` | src/temporada/temporada.service.ts:65-73 | a recipe created with a season id that casts to the season's ObjectId, whatever the case of its digits, is deleted by that season's removal and counted in `recetasEliminadas` |
| `Temporadas.RemoveThenFindOne` | src/temporada/temporada.service.ts:57-63 | once the season delete has happened, whether or not the cascade failed, looking the season up gives 404 |
| `Recetas.CreateOutcome` | src/recetas/recetas.service.ts:15-18 | create succeeds exactly when the season id (and the creator id, when given) cast and the save succeeds; it then adds exactly one recipe with the given fields and the ids in cast form, whatever season it names; a failed save, including an id that does not cast, is not caught and reaches the caller as the raw store error, changing nothing |
| `Recetas.RecetasService.Create` | src/recetas/recetas.service.ts:15-18 | the method's new recipes collection and result are those of `CreateOutcome` |
| `Recetas.BuildQuery` | src/recetas/recetas.service.ts:28-41 | the query has `creadoPorId` (and `temporadaId`) exactly when that filter is a non-empty text, holding that text; a non-empty `ingrediente` becomes a regex with that text as pattern and option 'i'; with no filters the query is empty; the role is never a key |
| `Recetas.Creator` | src/recetas/recetas.service.ts:46-49 | the creator is expanded exactly when the recipe has one, it exists, and no role was asked for or the creator has it |
| `Recetas.FindAll` | src/recetas/recetas.service.ts:21-55 | fails, always with 500 'Error al buscar recetas', exactly when the store fails, an id filter does not cast, or the pattern does not compile; otherwise lists exactly the recipes that satisfy every given filter (AND, absent filters impose nothing), each with its creator expansion |
| `Recetas.NoFiltersListsAll` | src/recetas/recetas.service.ts:28-41 | with no filter given (whatever the role) every recipe is listed |
| `Recetas.RolDoesNotFilter` | src/recetas/recetas.service.ts:43-49 | changing the role filter never changes which recipes are listed |
| `Recetas.FindOne` | src/recetas/recetas.service.ts:58-81 | returns the stored recipe; 404 'Receta no encontrada' when absent; 400 'ID inválido' for an id that does not cast; 500 'Error al buscar receta' on a store failure |
| `Recetas.PatchNothing` | src/recetas/recetas.service.ts:86-88 | an update that gives no field leaves the recipe as it was |
| `Recetas.PatchIdempotent` | src/recetas/recetas.service.ts:86-88 | applying the same update twice gives the same record as applying it once |
| `Recetas.UpdateOutcome` | src/recetas/recetas.service.ts:83-104 | success exactly when the ids cast, the store answers and the recipe exists; then only that recipe changes, to the patched record, and that record is returned; a missing recipe gives 404 'ID no encontrado', an id that does not cast 400, a store failure 500 'Error al buscar receta', all changing nothing |
| `Recetas.RecetasService.Update` | src/recetas/recetas.service.ts:83-104 | the method's new recipes collection and result are those of `UpdateOutcome` |
| `Recetas.UpdateThenFindOne` | src/recetas/recetas.service.ts:83-104 | after a successful update, looking the recipe up returns exactly what the update returned |
| `Recetas.RemoveOutcome` | src/recetas/recetas.service.ts:106-127 | success exactly when the id casts, the store answers and the recipe exists; then exactly that recipe is gone and the reply is 'Receta eliminada exitosamente' with the deleted record; a missing recipe gives 404 and changes nothing |
| `Recetas.RecetasService.Remove` | src/recetas/recetas.service.ts:106-127 | the method's new recipes collection and result are those of `RemoveOutcome` |
| `Recetas.RemoveThenFindOne` | src/recetas/recetas.service.ts:106-127 | after a successful remove, looking the recipe up gives 404 |
| `Recetas.CreateThenRemove` | src/recetas/recetas.service.ts:15-18 | for a body whose ids cast, removing a recipe just created restores the collection and returns the created record |
| `Auth.RegisterOutcome` | src/auth/auth.service.ts:14-43 | a stored email (exact equality) gives 409 'El email ya está registrado' and changes nothing; otherwise register succeeds exactly when the season id casts and the save succeeds, inserting exactly one user with the given email, name and role, the season id in cast form, the hash of the password and not verified, and returning it without password with 'Usuario registrado exitosamente'; store failures, a season id that does not cast among them, reach the caller raw and change nothing, and 409 is given for a stored email only; at most one user per email is preserved |
| `Auth.AuthService.Register` | src/auth/auth.service.ts:14-43 | the method keeps the unique-email invariant of the users collection and ends in the state and result of `RegisterOutcome` |
| `Auth.Login` | src/auth/auth.service.ts:45-66 | succeeds exactly when a user has that email (exact equality) and the password compares equal to its stored hash, returning that user without password and 'Login exitoso'; an unknown email and a wrong password both give the same 401 'Credenciales inválidas' |
| `Auth.LoginAfterRegister` | src/auth/auth.service.ts:55-58 | with a sound bcrypt, logging in right after registering with the same email and password returns the user register returned |
| `Auth.WrongPasswordAfterRegister` | src/auth/auth.service.ts:55-58 | right after registering, a password that does not match the stored hash gives the same 401 as an unknown email |
| `Auth.RegisterTwiceConflicts` | src/auth/auth.service.ts:18-21 | once an email is registered, registering it again with any other fields gives 409 and changes nothing |

## Left out

- Controllers, DTO validation, module wiring and application bootstrap: they forward arguments unchanged. The other constraints of the request bodies (required texts, numbers, role values) are taken as already validated; reference ids in the bodies go through the store's cast as described above.
- Population of references (`populate`): recipes and users are returned with their reference ids, except the creator expansion of the recipe listing, which is modelled because the role filter acts only there. The expanded creator is returned whole, as the store gives it.
- The store's ObjectId cast: modelled as 24 hexadecimal digits; other forms the library may accept (such as a 12-byte string) are not modelled.
- bcrypt: hashing and comparison are abstract functions; salting and the cost factor 10 are not modelled.
- `Recetas.Listed`: a listed recipe keeps its `creadoPorId` when the creator is not expanded; the store's populate with a role `match` that fails sets that field to null in the reply, which the model does not show.
- The regular-expression engine: abstract; the listing does not claim a literal substring match, since the filter text is passed as an unescaped pattern.
- Concurrency and atomicity: the race between the email lookup and the insert in register, and the non-transactional season-then-recipes delete, are outside a sequential model; only their sequential outcomes are modelled.
- Timestamps (`fechaCreacion`, schema timestamps), the `__v` version key, and JavaScript number semantics (numbers are integers here).
- Email verification, password reset, verification resend and token expiry: implemented by an external authentication library configured in `src/auth/better-auth/better-auth.config.ts`, which is not part of this model; the services never write the token fields.
- `UpdateRecetaDto` (src/recetas/dto/update-receta.dto.ts) is not part of this model; it is taken as every field of the create body made optional, with the store setting exactly the fields given.
