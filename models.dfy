/** The persisted records: `Expense`, its ID hook, and the `User` it points to. */
module Models {
  import opened Wrappers
  import opened Uuids

  /** A float64 in the record; the core only stores and returns it. */
  type Amount = int

  /** A time.Time in the record; the core only stores and returns it (0 is the zero time). */
  type Time = int

  /** One expense row. Its single owner is `userId`. */
  datatype Expense = Expense(
    id: Uuid,
    description: string,
    amount: Amount,
    createdAt: Time,
    updatedAt: Time,
    userId: Uuid)

  /** A user row; only its identifier matters to the expense handlers. */
  datatype User = User(id: Uuid)

  /** The zero value `var expense models.Expense` starts from. */
  const Blank := Expense(Nil, "", 0, 0, 0, Nil)

  /**
   * The create hook: stamps the record with the freshly generated `generated`
   * (what `uuid.New()` returned), replacing whatever ID it carried, and
   * reports no error.
   */
  method BeforeCreate(base: Expense, generated: Uuid) returns (stamped: Expense, err: Option<string>)
    ensures stamped.id == generated
    ensures stamped.description == base.description && stamped.amount == base.amount
    ensures stamped.createdAt == base.createdAt && stamped.updatedAt == base.updatedAt
    ensures stamped.userId == base.userId
    ensures err == None
  {
    stamped := base;
    stamped := stamped.(id := generated);
    err := None;
  }
}
