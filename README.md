# Expense tracker: ownership-checked expense store

A Dafny model of the expense handlers of a small multi-user expense-tracking
REST API written in Go with gin and gorm. The handlers list, create, read,
update and delete `Expense` rows. Update and delete are protected by an
ownership guard: the caller named in the request context must own the
expense named in the path.

What the model keeps, and what it replaces:

- The expenses table is a `map<Uuid, Expense>`. The read-only handlers are
  functions of a snapshot of it. The handlers that write are methods of the
  `Store` class, which holds the map. `Store.Valid()` says that every record
  is stored under its own ID, the table's primary key. Creating, updating and
  deleting preserve it. The users table, which no handler writes, is keyed
  the same way (`Handlers.UsersKeyedById`); the constructor establishes it
  and `CreateExpense`, the only handler that reads users, requires it.
- The request context value under `"userId"` is an explicit input: absent,
  a string (`Text`), or some other value (`OtherValue`).
- The decoded JSON body is a `Body` record whose fields are each present or
  absent. A body that fails to bind is `Err(message)`.
- Each database call that can fail for a reason other than a missing row
  takes a flag saying whether it fails.
- `uuid.New()` is the `generated` parameter. The methods require it to be
  absent from the table; this is the freshness assumption.
- Expense ids in paths are never parsed by the handlers. `Where("id = ?", text)`
  is modelled as finding the stored key whose canonical text is exactly
  `text` (`Handlers.FindKey`).
- `uuid.Parse` and `UUID.String()` of github.com/google/uuid are modelled
  in `Uuids`, because the guard's error order depends on what parses.
  `Parse` accepts four forms, chosen by length:
  - 36 characters: the dashed form;
  - 45 characters: `urn:uuid:` in any case, then the dashed form;
  - 38 characters: the first character is dropped and the next 36 are read
    as the dashed form;
  - 32 characters: bare hexadecimal.

  `Parse(Format(u)) == Some(u)` is proved. So distinct keys have distinct
  texts, and a text names at most one stored expense.

What the code does at the edges:

- A malformed expense id is not a separate error. With the exact-text
  lookup this model uses, it names no row, so the guard and `GetExpense`
  answer 404 (`HandlerProperties.MalformedIdIsNotFound`). On a database
  that casts the text to a uuid the answer could differ (see `FindKey`
  under "Left out").
- A caller identity that is not a UUID gets 500 from the guard. In
  `CreateExpense`, a missing identity gets 404 and a non-string or non-UUID
  identity gets 406.
- `UpdateExpense` does not protect ID or owner from the body: it binds the
  whole body onto the loaded record.
- The handlers' second owner comparisons (after the guard) can never fire.
  The guard already grants only the owner: every 401 from `UpdateExpense`
  and `DeleteExpense` is the guard's own refusal.
- `uuid.New()` never returns the nil UUID, so the generated ID is required
  to be non-nil. A row that nevertheless has the nil UUID as its ID cannot
  be deleted: gorm builds the delete's WHERE clause from non-zero primary
  keys only and refuses a delete without one, so the handler answers 500.

`UpdateExpense`'s `Save` is modelled on an assumed behaviour of gorm's
`Save` (the gorm version is not shown; see `SaveTarget` under "Left out"):
- a record whose ID is the nil UUID goes through the create path, where the
  hook gives it the generated ID;
- any other record is written under its own ID.

With no ID in the body, that is the record loaded for the path id, replaced
in place (`HandlerProperties.UpdateKeepsIdAndOwner`). With the ID of another
stored row in the body, the UPDATE matches no row; under the assumed
upsert fallback, `Save` then replaces the other row, whoever owns it, while
the path's row stays (`HandlerProperties.UpdateCanOverwriteAnotherRow`).
The guard checks only the row the path names.

## Model

| member | source | states |
|---|---|---|
| Uuids.Parse | golang/handlers/expenses.go:33-37 | Lengths other than 32, 36, 38 and 45 are rejected; a 36-character text is read as the dashed form; a 38-character text is read through its inner 36 characters |
| Uuids.Format | golang/handlers/expenses.go:40 | The canonical text of an ID is 36 characters with dashes at positions 8, 13, 18 and 23 |
| Uuids.ParseFormat | golang/handlers/expenses.go:33-40 | Parsing the canonical text of a UUID gives the UUID back |
| Uuids.FormatInjective | golang/handlers/expenses.go:40 | Distinct UUIDs have distinct canonical texts, so a path text names at most one row |
| Uuids.ParseUrn | golang/handlers/expenses.go:33 | The 45-character form, "urn:uuid:" in lower or upper case followed by the canonical text, parses to that UUID |
| Uuids.ParseBare | golang/handlers/expenses.go:75 | The 32-digit bare hexadecimal form of a UUID is also accepted as that UUID |
| Uuids.ParseIgnoresEnclosing | golang/handlers/expenses.go:75 | In the 38-character form the enclosing characters are not checked: the canonical text between any two characters parses |
| Uuids.DecodeHexRun | golang/handlers/expenses.go:33 | Decoding the hexadecimal written for a byte sequence gives the bytes back |
| Models.BeforeCreate | golang/models/expense.go:19-22 | The hook overwrites any existing ID with the generated one, leaves description, amount, timestamps and owner unchanged, and returns no error |
| Handlers.CallerUuid | golang/handlers/expenses.go:19-37 | The caller has a UUID exactly when the context holds a string that parses, and it is that parse |
| Handlers.Bind | golang/handlers/expenses.go:94 | Binding a body onto a record takes each field from the body when present and keeps the record's value when absent |
| Handlers.SaveTarget | golang/handlers/expenses.go:177 | Save changes at most the ID: a record with a non-nil ID is written as it is, one with the nil ID gets the generated ID, so a non-nil generated ID never leaves a nil ID |
| Handlers.FindKey | golang/handlers/expenses.go:40-47 | The lookup by path text finds the one stored key whose text equals the path text, and reports absence only when no stored key has that text |
| Handlers.CheckOwner | golang/handlers/expenses.go:39-55 | A failed lookup gives 500, a missing expense 404, and an expense owned by someone else 401; access is granted exactly when the caller owns the expense named by the text |
| Handlers.GetUserIdAndExpense | golang/handlers/expenses.go:15-56 | Checks in order: missing identity 401, non-string 400, non-UUID 500, then the lookup and ownership checks; grants exactly when the parsed caller owns the named expense, and a grant returns the caller equal to the expense's owner |
| Handlers.ListExpenses | golang/handlers/expenses.go:58-67 | 500 when the query fails; otherwise 200 with every stored expense and nothing else, whoever asks |
| Handlers.ListUserExpenses | golang/handlers/expenses.go:69-90 | 400 for a path segment that is not a UUID, 500 on query failure, otherwise 200 with exactly the stored expenses owned by that UUID; the caller is not consulted |
| Handlers.GetExpense | golang/handlers/expenses.go:143-155 | 200 with the stored expense exactly when the lookup succeeds and a stored key has the path text, whoever asks; every failure is 404 |
| Handlers.PutKeepsKeyedById | golang/models/expense.go:11 | Writing a record under its own ID keeps every row stored under its primary key |
| Handlers.Store.CreateExpense | golang/handlers/expenses.go:91-141 | Bind failure 400, missing identity 404, non-string or non-UUID identity 406, insert failure 501, with the table unchanged on each. Otherwise exactly one new key, the generated ID, holding the bound record owned by the caller whatever the body said. 201 with the record and the caller's own user row, whose ID is the caller's parsed UUID and the record's owner, or 500 when the user row cannot be loaded, with the insert kept |
| Handlers.Store.UpdateExpense | golang/handlers/expenses.go:157-184 | A guard refusal is answered as the guard answered it, then bind failure 400 and save failure 500, all with the table unchanged. On success 200 and the body-merged record saved by ID; every 401 is the guard's |
| Handlers.Store.DeleteExpense | golang/handlers/expenses.go:186-208 | A guard refusal is answered as the guard answered it, and delete failure or a nil primary key is 500, with the table unchanged. On success 200 with the confirmation message, and exactly the key named by the path removed |
| HandlerProperties.TextNamesOneKey | golang/handlers/expenses.go:40 | Two stored keys with the same text are the same key |
| HandlerProperties.NonOwnerIsRefused | golang/handlers/expenses.go:49-53 | A well-formed caller who does not own a stored expense is refused with 401, or 500 if the lookup fails |
| HandlerProperties.OwnerIsGranted | golang/handlers/expenses.go:49-55 | The owner of a stored expense is granted it and receives exactly the stored record |
| HandlerProperties.RemovedKeyIsNotFound | golang/handlers/expenses.go:39-42 | After a key is removed, the guard answers 404 for its text |
| HandlerProperties.MalformedIdIsNotFound | golang/handlers/expenses.go:40-42 | An expense id that is not a UUID names nothing: the guard and GetExpense answer 404 |
| HandlerProperties.GetIgnoresOwnership | golang/handlers/expenses.go:143-154 | Any stored expense is returned by its id with 200, with no caller involved |
| HandlerProperties.ListByOwnerText | golang/handlers/expenses.go:69-88 | Listing by the text of a UUID succeeds and lists an expense exactly when it is stored and owned by that UUID |
| HandlerProperties.UpdateKeepsIdAndOwner | golang/handlers/expenses.go:172-177 | A body that sets neither ID nor owner keeps both and sets the description, on a record with a non-nil ID |
| HandlerProperties.DeleteTwice | golang/handlers/expenses.go:186-207 | Deleting the same id a second time, after a successful delete, is refused with 404 |
| HandlerProperties.UpdateCanOverwriteAnotherRow | golang/handlers/expenses.go:162-182 | The owner of one row who sends another stored row's ID in the body gets 200; that other row is replaced by the merged record and the path's row is unchanged |

## Left out

- gin and gorm plumbing: writing JSON responses, reading path parameters,
  decoding JSON into the body, and building SQL. The body arrives decoded.
  A bind error's message is an opaque string.
- gorm's automatic timestamps (CreatedAt and UpdatedAt on insert and save) are not modelled; timestamps are opaque integers that are only stored.
- Amount is a float64 in the source and an opaque integer here: it is only stored, never computed on.
- uuid.New() is random: the generated ID is an input, assumed absent from the table (the `requires` of the write methods).
- Database faults are booleans per call. Constraints the database might enforce (a foreign key on the owner, say) are not modelled.
- The order of the listed expenses is whatever the database returns: the payload is a set.
- The created response's embedded user (`expense.User = user`) is a field the `Expense` struct shown does not have; the 201 payload is the expense paired with the user row.
- models/user.go is not part of this model: a user row is reduced to its ID.
- Strings are sequences of characters, while Go's `len` counts bytes. The two agree on ASCII text. They differ on a 38-character text whose first or last character is not ASCII: Go sees 39 to 44 bytes and rejects the length, while `Uuids.Parse` reads the middle 36 characters and can accept it. For such a caller identity the source answers 500 from the guard and 406 from `CreateExpense`, and such a userId path segment gets 400 from `ListUserExpenses`; the model accepts the identity.
- Uuids.UrnPrefix: compares the prefix with ASCII case folding only, where Go uses full Unicode folding. No letter of "urn:uuid:" has a non-ASCII fold partner, so the results agree.
- Handlers.SaveTarget: when the body carries an ID other than the path's, the UPDATE matches no row and gorm falls back to a second write. The model assumes the fallback of recent gorm v2 releases: an upsert under the body's ID with hooks skipped. Earlier releases instead run an ordinary create, where the hook gives the row a fresh ID and the other row is left alone. The upsert also keeps the existing row's `created_at`, which the model (whose timestamps are opaque) does not reproduce.
- Handlers.FindKey: `Where("id = ?", text)` is modelled as exact comparison with the canonical lower-case text, as on a database that stores the ID as text. The database is not shown; one that casts the text to a uuid would also find upper-case, braced or bare-hex ids, and would fail on a malformed id (500 from the guard) rather than find nothing. That casting is not modelled.
- The race between the guard's read and the later write, and all concurrency between requests.
- Route registration, the authorisation middleware, registration and login, database set-up and server start (routes.go, main.go) are not part of this model.
