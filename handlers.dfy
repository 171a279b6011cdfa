/**
 * The expense handlers. The database becomes a map from expense ID to
 * `Expense` (a snapshot for the read-only handlers, the `Store` class for the
 * ones that write); the request context, path parameters and decoded body
 * become explicit inputs; every database call that can fail for reasons
 * other than a missing row takes a flag saying whether it fails.
 */
module Handlers {
  import opened Wrappers
  import opened Uuids
  import opened Models

  type Expenses = map<Uuid, Expense>

  /** What `c.Get("userId")` finds in the request context when the key is present. */
  datatype ContextValue = Text(s: string) | OtherValue

  /** A request body after JSON binding: each `Expense` field is present or absent. */
  datatype Body = Body(
    id: Option<Uuid>,
    description: Option<string>,
    amount: Option<Amount>,
    createdAt: Option<Time>,
    updatedAt: Option<Time>,
    userId: Option<Uuid>)

  datatype Payload =
    | ErrorBody(error: string)
    | ExpenseList(expenses: set<Expense>)
    | ExpenseBody(expense: Expense)
    | CreatedBody(expense: Expense, owner: User)
    | MessageBody(message: string)

  datatype Response = Response(status: int, payload: Payload)

  /** Outcome of the ownership guard: the caller and the expense, or the error it answered with. */
  datatype Access = Granted(caller: Uuid, expense: Expense) | Denied(status: int, error: string)

  const UserIdNotFound := "User ID not found"
  const UserIdNotString := "User ID is not of type string"
  const UserIdNotUuid := "User ID is not a valid UUID"
  const ExpenseNotFound := "Expense not found"
  const RetrieveExpenseFailed := "Failed to retrieve expense"
  const NotAuthorized := "You are not authorized to access this expense"
  const NotAllowed := "You are not allowed to update this expense"
  const RetrieveAllFailed := "Failed to retrieve expenses"
  const RetrieveUserFailed := "Failed to retrieve expenses for the user"
  const CreateFailed := "Failed to create expense"
  const LoadUserFailed := "Failed to load user data"
  const UpdateFailed := "Failed to update expense"
  const DeleteFailed := "Failed to delete expense"
  const Deleted := "Expense deleted successfully"

  /** The caller's UUID, when the context holds a string that parses as one. */
  function CallerUuid(caller: Option<ContextValue>): (r: Option<Uuid>)
    ensures r.Some? <==> caller.Some? && caller.value.Text? && Parse(caller.value.s).Some?
    ensures r.Some? ==> r == Parse(caller.value.s)
  {
    match caller
    case Some(Text(s)) => Parse(s)
    case _ => None
  }

  /** The field after binding: the body's value when present, the old value otherwise. */
  predicate Takes<T(==)>(field: Option<T>, after: T, before: T) {
    if field.Some? then after == field.value else after == before
  }

  /** JSON binding onto an existing record: present fields overwrite, absent ones stay. */
  function Bind(e: Expense, b: Body): (r: Expense)
    ensures Takes(b.id, r.id, e.id) && Takes(b.description, r.description, e.description)
    ensures Takes(b.amount, r.amount, e.amount)
    ensures Takes(b.createdAt, r.createdAt, e.createdAt) && Takes(b.updatedAt, r.updatedAt, e.updatedAt)
    ensures Takes(b.userId, r.userId, e.userId)
  {
    Expense(
      b.id.GetOr(e.id),
      b.description.GetOr(e.description),
      b.amount.GetOr(e.amount),
      b.createdAt.GetOr(e.createdAt),
      b.updatedAt.GetOr(e.updatedAt),
      b.userId.GetOr(e.userId))
  }

  /** The error response a guard refusal is answered with. */
  function Refusal(a: Access): Response
    requires a.Denied?
  {
    Response(a.status, ErrorBody(a.error))
  }

  /**
   * `Where("id = ?", text).First(...)`: the stored expense whose ID, written
   * as text, is exactly the raw path string.
   */
  function FindKey(expenses: Expenses, text: string): (k: Option<Uuid>)
    ensures k.Some? ==> k.value in expenses && Format(k.value) == text
    ensures k.Some? ==> forall u :: u in expenses && Format(u) == text ==> u == k.value
    ensures k.None? ==> forall u :: u in expenses ==> Format(u) != text
  {
    ParseFormatAll();
    match Parse(text)
    case Some(u) => if u in expenses && Format(u) == text then Some(u) else None
    case None => None
  }

  /** The caller, given as a UUID, owns the expense stored under the text `text`. */
  predicate Owns(expenses: Expenses, caller: Uuid, text: string) {
    exists k :: k in expenses && Format(k) == text && expenses[k].userId == caller
  }

  /**
   * The second half of `getUserIDAndExpense`, once the caller is known as the
   * UUID `caller`: the lookup must not fail (500), the expense must exist
   * (404), and the caller must own it (401).
   */
  function CheckOwner(expenses: Expenses, caller: Uuid, expenseId: string, lookupFails: bool): (r: Access)
    ensures lookupFails ==> r == Denied(500, RetrieveExpenseFailed)
    ensures !lookupFails && (forall k :: k in expenses ==> Format(k) != expenseId) ==>
              r == Denied(404, ExpenseNotFound)
    ensures !lookupFails && (exists k :: k in expenses && Format(k) == expenseId) && !Owns(expenses, caller, expenseId) ==>
              r == Denied(401, NotAuthorized)
    ensures r.Granted? <==> !lookupFails && Owns(expenses, caller, expenseId)
    ensures r.Granted? ==> r.caller == caller == r.expense.userId
    ensures r.Granted? ==> exists k :: k in expenses && Format(k) == expenseId && expenses[k] == r.expense
  {
    if lookupFails then Denied(500, RetrieveExpenseFailed)
    else
      match FindKey(expenses, expenseId)
      case None => Denied(404, ExpenseNotFound)
      case Some(k) =>
        if caller != expenses[k].userId then Denied(401, NotAuthorized)
        else Granted(caller, expenses[k])
  }

  /**
   * `getUserIDAndExpense`: checks in order that a caller identity is present
   * (401), is a string (400), parses as a UUID (500), that the lookup does not
   * fail (500), that the expense exists (404), and that the caller owns it (401).
   */
  function GetUserIdAndExpense(expenses: Expenses, caller: Option<ContextValue>, expenseId: string, lookupFails: bool): (r: Access)
    ensures caller.None? ==> r == Denied(401, UserIdNotFound)
    ensures caller == Some(OtherValue) ==> r == Denied(400, UserIdNotString)
    ensures caller.Some? && caller.value.Text? && Parse(caller.value.s).None? ==> r == Denied(500, UserIdNotUuid)
    ensures CallerUuid(caller).Some? ==> r == CheckOwner(expenses, CallerUuid(caller).value, expenseId, lookupFails)
    ensures r.Granted? <==> CallerUuid(caller).Some? && !lookupFails && Owns(expenses, CallerUuid(caller).value, expenseId)
    ensures r.Granted? ==> r.caller == r.expense.userId && Some(r.caller) == CallerUuid(caller)
    ensures r.Granted? ==> exists k :: k in expenses && Format(k) == expenseId && expenses[k] == r.expense
  {
    match caller
    case None => Denied(401, UserIdNotFound)
    case Some(OtherValue) => Denied(400, UserIdNotString)
    case Some(Text(s)) =>
      match Parse(s)
      case None => Denied(500, UserIdNotUuid)
      case Some(u) => CheckOwner(expenses, u, expenseId, lookupFails)
  }

  /** `ListExpenses`: every stored expense, whoever asks. */
  function ListExpenses(expenses: Expenses, findFails: bool): (r: Response)
    ensures findFails ==> r == Response(500, ErrorBody(RetrieveAllFailed))
    ensures !findFails ==> r.status == 200 && r.payload.ExpenseList?
    ensures !findFails ==> forall k :: k in expenses ==> expenses[k] in r.payload.expenses
    ensures !findFails ==> forall e :: e in r.payload.expenses ==> exists k :: k in expenses && expenses[k] == e
  {
    if findFails then Response(500, ErrorBody(RetrieveAllFailed))
    else Response(200, ExpenseList(expenses.Values))
  }

  /**
   * `ListUserExpenses`: the expenses whose owner is the UUID in the path,
   * whoever asks; 400 when the path segment is not a UUID.
   */
  function ListUserExpenses(expenses: Expenses, userIdParam: string, findFails: bool): (r: Response)
    ensures Parse(userIdParam).None? ==> r == Response(400, ErrorBody(UserIdNotUuid))
    ensures Parse(userIdParam).Some? && findFails ==> r == Response(500, ErrorBody(RetrieveUserFailed))
    ensures r.status == 200 <==> Parse(userIdParam).Some? && !findFails
    ensures r.status == 200 ==> r.payload.ExpenseList?
    ensures r.status == 200 ==> forall k :: k in expenses && expenses[k].userId == Parse(userIdParam).value
                                  ==> expenses[k] in r.payload.expenses
    ensures r.status == 200 ==> forall e :: e in r.payload.expenses
                                  ==> e.userId == Parse(userIdParam).value && exists k :: k in expenses && expenses[k] == e
  {
    match Parse(userIdParam)
    case None => Response(400, ErrorBody(UserIdNotUuid))
    case Some(u) =>
      if findFails then Response(500, ErrorBody(RetrieveUserFailed))
      else Response(200, ExpenseList(set k | k in expenses && expenses[k].userId == u :: expenses[k]))
  }

  /** `GetExpense`: the expense stored under the path text, with no ownership check; 404 on any failure. */
  function GetExpense(expenses: Expenses, id: string, lookupFails: bool): (r: Response)
    ensures r.status == 200 <==> !lookupFails && exists k :: k in expenses && Format(k) == id
    ensures r.status == 200 ==> exists k :: k in expenses && Format(k) == id && r.payload == ExpenseBody(expenses[k])
    ensures r.status != 200 ==> r == Response(404, ErrorBody(ExpenseNotFound))
  {
    if lookupFails then Response(404, ErrorBody(ExpenseNotFound))
    else
      match FindKey(expenses, id)
      case None => Response(404, ErrorBody(ExpenseNotFound))
      case Some(k) => Response(200, ExpenseBody(expenses[k]))
  }

  /**
   * What `Save` writes: a record whose ID is the nil UUID goes through the
   * create path, where the hook gives it the generated ID; any other record
   * is written under its own ID.
   */
  function SaveTarget(e: Expense, generated: Uuid): (r: Expense)
    ensures r.(id := e.id) == e
    ensures e.id != Nil ==> r == e
    ensures e.id == Nil ==> r.id == generated
    ensures generated != Nil ==> r.id != Nil
  {
    if e.id == Nil then e.(id := generated) else e
  }

  /** Every record is stored under its own ID (the table's primary key). */
  ghost predicate KeyedById(expenses: Expenses) {
    forall k :: k in expenses ==> expenses[k].id == k
  }

  /** Every user row is stored under its own ID. */
  ghost predicate UsersKeyedById(users: map<Uuid, User>) {
    forall u :: u in users ==> users[u].id == u
  }

  /** Writing a record under its own ID keeps the table keyed by ID. */
  lemma PutKeepsKeyedById(expenses: Expenses, e: Expense)
    requires KeyedById(expenses)
    ensures KeyedById(expenses[e.id := e])
  {
  }

  /** Removing a row keeps the table keyed by ID. */
  lemma RemoveKeepsKeyedById(expenses: Expenses, k: Uuid)
    requires KeyedById(expenses)
    ensures KeyedById(expenses - {k})
  {
  }

  /** The expenses table, held in memory. */
  class Store {
    var expenses: Expenses
    var users: map<Uuid, User>

    ghost predicate Valid()
      reads this
    {
      KeyedById(expenses)
    }

    constructor (expenses: Expenses, users: map<Uuid, User>)
      requires KeyedById(expenses)
      requires UsersKeyedById(users)
      ensures Valid() && UsersKeyedById(this.users)
      ensures this.expenses == expenses && this.users == users
    {
      this.expenses := expenses;
      this.users := users;
    }

    /**
     * `CreateExpense`: binds the body, takes the owner from the caller
     * identity whatever the body said, inserts the record under the hook's
     * fresh ID, then loads the owner's user row for the response.
     */
    method CreateExpense(body: Result<Body, string>, caller: Option<ContextValue>, generated: Uuid, insertFails: bool, userLookupFails: bool)
      returns (resp: Response)
      requires Valid() && UsersKeyedById(users)
      requires generated != Nil && generated !in expenses
      modifies this`expenses
      ensures Valid()
      ensures body.Err? ==> resp == Response(400, ErrorBody(body.error))
      ensures body.Ok? && caller.None? ==> resp == Response(404, ErrorBody(UserIdNotFound))
      ensures body.Ok? && caller == Some(OtherValue) ==> resp == Response(406, ErrorBody(UserIdNotString))
      ensures body.Ok? && caller.Some? && caller.value.Text? && Parse(caller.value.s).None? ==>
                resp == Response(406, ErrorBody(UserIdNotUuid))
      ensures body.Ok? && CallerUuid(caller).Some? && insertFails ==> resp == Response(501, ErrorBody(CreateFailed))
      ensures resp.status != 201 && resp.status != 500 ==> expenses == old(expenses)
      ensures resp.status == 201 || resp.status == 500 ==>
                && body.Ok? && CallerUuid(caller).Some? && !insertFails
                && expenses.Keys == old(expenses).Keys + {generated}
                && (forall k :: k in old(expenses) ==> expenses[k] == old(expenses)[k])
                && expenses[generated] == Bind(Blank, body.value).(id := generated, userId := CallerUuid(caller).value)
      ensures body.Ok? && CallerUuid(caller).Some? && !insertFails ==>
                && expenses.Keys == old(expenses).Keys + {generated}
                && expenses[generated].userId == CallerUuid(caller).value
                && (resp.status == 201 || resp.status == 500)
      ensures body.Ok? && CallerUuid(caller).Some? && !insertFails && (userLookupFails || CallerUuid(caller).value !in users) ==>
                resp == Response(500, ErrorBody(LoadUserFailed))
      ensures resp.status == 201 <==>
                body.Ok? && CallerUuid(caller).Some? && !insertFails && !userLookupFails && CallerUuid(caller).value in users
      ensures resp.status == 201 ==> resp.payload == CreatedBody(expenses[generated], users[CallerUuid(caller).value])
      ensures resp.status == 201 ==> resp.payload.owner.id == CallerUuid(caller).value == resp.payload.expense.userId
      ensures resp.status == 500 ==> resp.payload == ErrorBody(LoadUserFailed)
    {
      if body.Err? {
        return Response(400, ErrorBody(body.error));
      }
      var expense := Bind(Blank, body.value);
      if caller.None? {
        return Response(404, ErrorBody(UserIdNotFound));
      }
      if !caller.value.Text? {
        return Response(406, ErrorBody(UserIdNotString));
      }
      var parsed := Parse(caller.value.s);
      if parsed.None? {
        return Response(406, ErrorBody(UserIdNotUuid));
      }
      var id := parsed.value;
      expense := expense.(userId := id);
      var err;
      expense, err := BeforeCreate(expense, generated);
      if insertFails {
        return Response(501, ErrorBody(CreateFailed));
      }
      expenses := expenses[expense.id := expense];
      if userLookupFails || expense.userId !in users {
        return Response(500, ErrorBody(LoadUserFailed));
      }
      var user := users[expense.userId];
      resp := Response(201, CreatedBody(expense, user));
    }

    /**
     * `UpdateExpense`: guarded; binds the body onto the loaded record and
     * saves the result. The body may carry any field, ID and owner included.
     */
    method UpdateExpense(id: string, caller: Option<ContextValue>, body: Result<Body, string>, lookupFails: bool, saveFails: bool, generated: Uuid)
      returns (resp: Response)
      requires Valid()
      requires generated != Nil && generated !in expenses
      modifies this`expenses
      ensures Valid()
      ensures resp.status != 200 ==> expenses == old(expenses)
      ensures var g := GetUserIdAndExpense(old(expenses), caller, id, lookupFails);
              && (g.Denied? ==> resp == Refusal(g))
              && (resp.status == 401 ==> g.Denied? && resp == Refusal(g))
              && (g.Granted? && body.Err? ==> resp == Response(400, ErrorBody(body.error)))
              && (g.Granted? && body.Ok? && saveFails ==> resp == Response(500, ErrorBody(UpdateFailed)))
              && (resp.status == 200 <==> g.Granted? && body.Ok? && !saveFails)
              && (resp.status == 200 ==>
                    var t := SaveTarget(Bind(g.expense, body.value), generated);
                    expenses == old(expenses)[t.id := t] && resp.payload == ExpenseBody(t))
    {
      var userUuid, expense;
      var g := GetUserIdAndExpense(expenses, caller, id, lookupFails);
      if g.Denied? {
        return Refusal(g);
      }
      userUuid, expense := g.caller, g.expense;
      if userUuid != expense.userId {
        return Response(401, ErrorBody(NotAllowed));
      }
      if body.Err? {
        return Response(400, ErrorBody(body.error));
      }
      expense := Bind(expense, body.value);
      if saveFails {
        return Response(500, ErrorBody(UpdateFailed));
      }
      if expense.id == Nil {
        var err;
        expense, err := BeforeCreate(expense, generated);
      }
      PutKeepsKeyedById(expenses, expense);
      expenses := expenses[expense.id := expense];
      resp := Response(200, ExpenseBody(expense));
    }

    /**
     * `DeleteExpense`: guarded; removes the loaded record by its primary key.
     * A record whose key is the nil UUID cannot be deleted this way.
     */
    method DeleteExpense(id: string, caller: Option<ContextValue>, lookupFails: bool, deleteFails: bool)
      returns (resp: Response)
      requires Valid()
      modifies this`expenses
      ensures Valid()
      ensures resp.status != 200 ==> expenses == old(expenses)
      ensures var g := GetUserIdAndExpense(old(expenses), caller, id, lookupFails);
              && (g.Denied? ==> resp == Refusal(g))
              && (resp.status == 401 ==> g.Denied? && resp == Refusal(g))
              && (g.Granted? && (deleteFails || g.expense.id == Nil) ==> resp == Response(500, ErrorBody(DeleteFailed)))
              && (resp.status == 200 <==> g.Granted? && !deleteFails && g.expense.id != Nil)
              && (resp.status == 200 ==>
                    && resp.payload == MessageBody(Deleted)
                    && g.expense.id in old(expenses) && Format(g.expense.id) == id
                    && expenses == old(expenses) - {g.expense.id})
    {
      var g := GetUserIdAndExpense(expenses, caller, id, lookupFails);
      if g.Denied? {
        return Refusal(g);
      }
      var userUuid, expense := g.caller, g.expense;
      if userUuid != expense.userId {
        return Response(401, ErrorBody(NotAllowed));
      }
      // A zero primary key gives the delete no WHERE clause, which gorm refuses.
      if deleteFails || expense.id == Nil {
        return Response(500, ErrorBody(DeleteFailed));
      }
      RemoveKeepsKeyedById(expenses, expense.id);
      expenses := expenses - {expense.id};
      resp := Response(200, MessageBody(Deleted));
    }
  }
}
