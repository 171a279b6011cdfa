/** Properties of the expense handlers that relate several operations or inputs. */
module HandlerProperties {
  import opened Wrappers
  import opened Uuids
  import opened Models
  import opened Handlers

  /** Two stored keys with the same text are the same key. */
  lemma TextNamesOneKey(expenses: Expenses, k: Uuid)
    ensures forall j :: j in expenses && Format(j) == Format(k) ==> j == k
  {
    forall j | j in expenses && Format(j) == Format(k) ensures j == k {
      FormatInjective(j, k);
    }
  }

  /** A caller who does not own a stored expense may not act on it. */
  lemma NonOwnerIsRefused(expenses: Expenses, k: Uuid, s: string, lookupFails: bool)
    requires k in expenses
    requires Parse(s).Some? && Parse(s).value != expenses[k].userId
    ensures GetUserIdAndExpense(expenses, Some(Text(s)), Format(k), lookupFails)
            == if lookupFails then Denied(500, RetrieveExpenseFailed) else Denied(401, NotAuthorized)
  {
  }

  /** The owner of a stored expense is granted it, and gets back exactly the stored record. */
  lemma OwnerIsGranted(expenses: Expenses, k: Uuid, s: string)
    requires k in expenses
    requires Parse(s) == Some(expenses[k].userId)
    ensures GetUserIdAndExpense(expenses, Some(Text(s)), Format(k), false) == Granted(expenses[k].userId, expenses[k])
  {
  }

  /** Once a key is removed, a well-formed caller asking for it is told it does not exist. */
  lemma RemovedKeyIsNotFound(expenses: Expenses, k: Uuid, s: string)
    requires Parse(s).Some?
    ensures GetUserIdAndExpense(expenses - {k}, Some(Text(s)), Format(k), false) == Denied(404, ExpenseNotFound)
  {
    TextNamesOneKey(expenses, k);
  }

  /**
   * An expense id that is not a UUID at all names no stored expense: the guard
   * and `GetExpense` answer 404, not an invalid-identifier error.
   */
  lemma MalformedIdIsNotFound(expenses: Expenses, s: string, text: string)
    requires Parse(s).Some? && Parse(text).None?
    ensures GetUserIdAndExpense(expenses, Some(Text(s)), text, false) == Denied(404, ExpenseNotFound)
    ensures GetExpense(expenses, text, false) == Response(404, ErrorBody(ExpenseNotFound))
  {
  }

  /** Any caller, owner or not, can read a stored expense by its id. */
  lemma GetIgnoresOwnership(expenses: Expenses, k: Uuid)
    requires k in expenses
    ensures GetExpense(expenses, Format(k), false) == Response(200, ExpenseBody(expenses[k]))
  {
  }

  /** Listing by the text of a UUID lists exactly that user's expenses. */
  lemma ListByOwnerText(expenses: Expenses, u: Uuid, e: Expense)
    ensures ListUserExpenses(expenses, Format(u), false).status == 200
    ensures e in ListUserExpenses(expenses, Format(u), false).payload.expenses <==> e in expenses.Values && e.userId == u
  {
    ParseFormat(u);
  }

  /**
   * An update whose body sets neither ID nor owner, applied to a record with
   * a non-nil ID, keeps the ID and the owner and takes the new description.
   */
  lemma UpdateKeepsIdAndOwner(e: Expense, b: Body, generated: Uuid)
    requires e.id != Nil && b.id.None? && b.userId.None?
    ensures SaveTarget(Bind(e, b), generated).id == e.id
    ensures SaveTarget(Bind(e, b), generated).userId == e.userId
    ensures SaveTarget(Bind(e, b), generated).description == b.description.GetOr(e.description)
  {
  }

  /** Deleting the same id twice: the second attempt is refused with 404. */
  method DeleteTwice(store: Store, id: string, s: string) returns (first: Response, second: Response)
    requires store.Valid() && Parse(s).Some?
    modifies store
    ensures first.status == 200 ==> second == Response(404, ErrorBody(ExpenseNotFound))
  {
    first := store.DeleteExpense(id, Some(Text(s)), false, false);
    second := store.DeleteExpense(id, Some(Text(s)), false, false);
    if first.status == 200 {
      var g := GetUserIdAndExpense(old(store.expenses), Some(Text(s)), id, false);
      RemovedKeyIsNotFound(old(store.expenses), g.expense.id, s);
    }
  }

  /**
   * The guard checks the row named by the path, but `Save` writes under the
   * ID the body supplies: the owner of row `k` who sends the ID of another
   * stored row `x` replaces row `x`, whoever owns it, and row `k` stays.
   */
  method UpdateCanOverwriteAnotherRow(store: Store, k: Uuid, x: Uuid, s: string, b: Body, generated: Uuid)
    returns (resp: Response)
    requires store.Valid()
    requires generated != Nil && generated !in store.expenses
    requires k in store.expenses && x in store.expenses && k != x && x != Nil
    requires Parse(s) == Some(store.expenses[k].userId)
    requires b.id == Some(x)
    modifies store
    ensures resp.status == 200
    ensures x in store.expenses && store.expenses[x] == Bind(old(store.expenses[k]), b)
    ensures k in store.expenses && store.expenses[k] == old(store.expenses[k])
  {
    OwnerIsGranted(store.expenses, k, s);
    resp := store.UpdateExpense(Format(k), Some(Text(s)), Ok(b), false, false, generated);
  }
}
