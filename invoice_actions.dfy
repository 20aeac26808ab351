/**
 * The server actions of app/lib/action.ts: `createInvoice`, `updateInvoice`
 * and `deleteInvoice` over the `invoices` table, and `authenticate`.
 *
 * The table behind the module-level `sql` connection is a `Database` object
 * whose `invoices` map the three SQL statements update in place; whether a
 * statement succeeds is decided by the store and arrives as a `DbOutcome`
 * parameter. `revalidatePath` is recorded in a `PathCache` object, and
 * `redirect`, which ends the handler, is the handler's result `Redirected`.
 */
module InvoiceActions {
  import opened Wrappers
  import opened FormValidation

  /** The list page every successful mutation invalidates and navigates to. */
  const InvoicesPath := "/dashboard/invoices"

  const CreateRejected := "missing fileds. Failed to create invoice"
  const UpdateRejected := "missing failed. Failed to update invoice"
  const CreateDbError := "Database Error: Failed to create invoice: "
  const UpdateDbError := "Database Error: Failed to update the invoice: "
  const DeleteDbError := "Database Error: Failed to delete the invoice: "

  /** A row of `invoices(id, customer_id, amount, status, date)`; `amount` is in cents. */
  datatype Invoice = Invoice(id: string, customerId: string, amount: real, status: Status, date: string)

  /** How the store answers one statement: success, or a thrown error whose `String(error)` is `text`. */
  datatype DbOutcome = Ok | Err(text: string)

  /**
   * The object a handler returns: `State`'s `errors` and `message`, plus the
   * `error` key under which `updateInvoice` puts its field errors.
   */
  datatype FormState = FormState(errors: Option<map<Field, seq<Msg>>>, error: Option<map<Field, seq<Msg>>>, message: Option<string>)

  /** How a handler invocation ends: a returned value, `undefined`, or the throw of `redirect(path)`. */
  datatype Outcome = Returned(state: FormState) | ReturnedNothing | Redirected(path: string)

  /** Every row is stored under its own `id` (the primary key). */
  ghost predicate KeyedById(t: map<string, Invoice>)
  {
    forall k :: k in t ==> t[k].id == k
  }

  /** Every amount is strictly positive, as the schema guarantees for rows these handlers write. */
  ghost predicate AmountsPositive(t: map<string, Invoice>)
  {
    forall k :: k in t ==> t[k].amount > 0.0
  }

  /** A store-error state: `{ message: prefix + String(error) }`. */
  function DbErrorState(prefix: string, text: string): FormState
  {
    FormState(None, None, Some(prefix + text))
  }

  /** The `invoices` table reached through `sql`. */
  class Database {
    var invoices: map<string, Invoice>

    ghost predicate Valid()
      reads this
    {
      KeyedById(invoices)
    }

    constructor (rows: map<string, Invoice>)
      requires KeyedById(rows)
      ensures Valid() && invoices == rows
    {
      invoices := rows;
    }

    /** `INSERT INTO invoices (customer_id, amount, status, date) VALUES (...)`; the store assigns `id`. */
    method Insert(id: string, customerId: string, amount: real, status: Status, date: string, outcome: DbOutcome)
      requires Valid()
      requires outcome.Ok? ==> id !in invoices
      modifies this
      ensures Valid()
      ensures outcome.Ok? ==> invoices == old(invoices)[id := Invoice(id, customerId, amount, status, date)]
      ensures outcome.Err? ==> invoices == old(invoices)
    {
      if outcome.Ok? {
        invoices := invoices[id := Invoice(id, customerId, amount, status, date)];
      }
    }

    /** `UPDATE invoices SET customer_id, amount, status WHERE id = ...`: zero or one row. */
    method Update(id: string, customerId: string, amount: real, status: Status, outcome: DbOutcome)
      requires Valid()
      modifies this
      ensures Valid()
      ensures invoices.Keys == old(invoices).Keys
      ensures forall k :: k in invoices && (k != id || outcome.Err?) ==> invoices[k] == old(invoices)[k]
      ensures outcome.Ok? && id in invoices ==>
        invoices[id] == old(invoices)[id].(customerId := customerId, amount := amount, status := status)
    {
      if outcome.Ok? && id in invoices {
        invoices := invoices[id := invoices[id].(customerId := customerId, amount := amount, status := status)];
      }
    }

    /** `DELETE FROM invoices WHERE id = ...`. */
    method Delete(id: string, outcome: DbOutcome)
      requires Valid()
      modifies this
      ensures Valid()
      ensures outcome.Ok? ==> invoices == old(invoices) - {id}
      ensures outcome.Err? ==> invoices == old(invoices)
    {
      if outcome.Ok? {
        invoices := invoices - {id};
      }
    }
  }

  /** Next.js's rendering cache, seen through the paths `revalidatePath` marked stale, in call order. */
  class PathCache {
    var revalidated: seq<string>

    constructor ()
      ensures revalidated == []
    {
      revalidated := [];
    }

    method RevalidatePath(path: string)
      modifies this
      ensures revalidated == old(revalidated) + [path]
    {
      revalidated := revalidated + [path];
    }
  }

  /**
   * `createInvoice(prevState, formData)`. `assignedId` is the key the store
   * generates for the new row and `today` the date part of the current ISO time.
   */
  method CreateInvoice(sql: Database, cache: PathCache, form: Submission, assignedId: string, today: string, outcome: DbOutcome)
    returns (out: Outcome)
    requires sql.Valid()
    requires outcome.Ok? ==> assignedId !in sql.invoices
    modifies sql, cache
    ensures sql.Valid()
    ensures AmountsPositive(old(sql.invoices)) ==> AmountsPositive(sql.invoices)
    // the form is rejected: field errors under `errors`, nothing written, no effect
    ensures Validate(form).Failure? ==>
      && out == Returned(FormState(Some(Validate(form).fieldErrors), None, Some(CreateRejected)))
      && sql.invoices == old(sql.invoices) && cache.revalidated == old(cache.revalidated)
    // the insert throws: the error's text in the message, no effect
    ensures Validate(form).Success? && outcome.Err? ==>
      && out == Returned(DbErrorState(CreateDbError, outcome.text))
      && sql.invoices == old(sql.invoices) && cache.revalidated == old(cache.revalidated)
    // the insert succeeds: exactly one new row, one invalidation, then the redirect
    ensures Validate(form).Success? && outcome.Ok? ==>
      && var d := Validate(form).data;
      && sql.invoices == old(sql.invoices)[assignedId := Invoice(assignedId, d.customerId, d.amount * 100.0, d.status, today)]
      && |sql.invoices| == |old(sql.invoices)| + 1
      && cache.revalidated == old(cache.revalidated) + [InvoicesPath]
      && out == Redirected(InvoicesPath)
  {
    var validated := Validate(form);
    if validated.Failure? {
      return Returned(FormState(Some(validated.fieldErrors), None, Some(CreateRejected)));
    }
    var d := validated.data;
    var amountInCents := d.amount * 100.0;
    sql.Insert(assignedId, d.customerId, amountInCents, d.status, today, outcome);
    if outcome.Err? {
      return Returned(DbErrorState(CreateDbError, outcome.text));
    }
    cache.RevalidatePath(InvoicesPath);
    return Redirected(InvoicesPath);
  }

  /** `updateInvoice(id, prevState, formData)`. */
  method UpdateInvoice(sql: Database, cache: PathCache, id: string, form: Submission, outcome: DbOutcome)
    returns (out: Outcome)
    requires sql.Valid()
    modifies sql, cache
    ensures sql.Valid()
    ensures AmountsPositive(old(sql.invoices)) ==> AmountsPositive(sql.invoices)
    // the form is rejected: field errors under the key `error`, nothing written, no effect
    ensures Validate(form).Failure? ==>
      && out == Returned(FormState(None, Some(Validate(form).fieldErrors), Some(UpdateRejected)))
      && sql.invoices == old(sql.invoices) && cache.revalidated == old(cache.revalidated)
    // the update throws: the error's text in the message, no effect
    ensures Validate(form).Success? && outcome.Err? ==>
      && out == Returned(DbErrorState(UpdateDbError, outcome.text))
      && sql.invoices == old(sql.invoices) && cache.revalidated == old(cache.revalidated)
    // the update succeeds: only the matching row's customer, amount and status change
    ensures Validate(form).Success? && outcome.Ok? ==>
      && var d := Validate(form).data;
      && sql.invoices.Keys == old(sql.invoices).Keys
      && (forall k :: k in sql.invoices && k != id ==> sql.invoices[k] == old(sql.invoices)[k])
      && (id in sql.invoices ==>
            && sql.invoices[id].id == id
            && sql.invoices[id].date == old(sql.invoices)[id].date
            && sql.invoices[id].customerId == d.customerId
            && sql.invoices[id].amount == d.amount * 100.0
            && sql.invoices[id].status == d.status)
      && cache.revalidated == old(cache.revalidated) + [InvoicesPath]
      && out == Redirected(InvoicesPath)
    // no row has that id: the table stays as it was and no error is reported
    ensures id !in old(sql.invoices) ==> sql.invoices == old(sql.invoices)
    ensures id !in old(sql.invoices) && Validate(form).Success? && outcome.Ok? ==> out == Redirected(InvoicesPath)
  {
    var validated := Validate(form);
    if validated.Failure? {
      return Returned(FormState(None, Some(validated.fieldErrors), Some(UpdateRejected)));
    }
    var d := validated.data;
    var amountInCents := d.amount * 100.0;
    sql.Update(id, d.customerId, amountInCents, d.status, outcome);
    if outcome.Err? {
      return Returned(DbErrorState(UpdateDbError, outcome.text));
    }
    cache.RevalidatePath(InvoicesPath);
    return Redirected(InvoicesPath);
  }

  /** `deleteInvoice(id)`: no validation and, on success, no redirect. */
  method DeleteInvoice(sql: Database, cache: PathCache, id: string, outcome: DbOutcome)
    returns (out: Outcome)
    requires sql.Valid()
    modifies sql, cache
    ensures sql.Valid()
    ensures AmountsPositive(old(sql.invoices)) ==> AmountsPositive(sql.invoices)
    ensures outcome.Err? ==>
      && out == Returned(DbErrorState(DeleteDbError, outcome.text))
      && sql.invoices == old(sql.invoices) && cache.revalidated == old(cache.revalidated)
    ensures outcome.Ok? ==>
      && sql.invoices.Keys == old(sql.invoices).Keys - {id}
      && (forall k :: k in sql.invoices ==> sql.invoices[k] == old(sql.invoices)[k])
      && cache.revalidated == old(cache.revalidated) + [InvoicesPath]
      && out == ReturnedNothing
  {
    sql.Delete(id, outcome);
    if outcome.Err? {
      return Returned(DbErrorState(DeleteDbError, outcome.text));
    }
    cache.RevalidatePath(InvoicesPath);
    return ReturnedNothing;
  }

  /** What `signIn('credentials', formData)` throws. */
  datatype Thrown = AuthError(kind: string) | OtherError(value: string)

  /** How `signIn` ends: it returns, or it throws. */
  datatype SignIn = SignedIn | SignInThrew(error: Thrown)

  /** How `authenticate` ends: returning `undefined`, returning a message, or throwing. */
  datatype AuthOutcome = Done | Message(text: string) | Rethrown(error: Thrown)

  const CredentialsSignin := "CredentialsSignin"
  const InvalidCredentials := "invalid credentials"
  const SomethingWentWrong := "something went wrong"

  /** `authenticate(prevState, formData)`, given how the sign-in attempt ended. */
  function Authenticate(signIn: SignIn): (r: AuthOutcome)
    ensures r.Done? <==> signIn.SignedIn?
    ensures r.Rethrown? <==> signIn.SignInThrew? && !signIn.error.AuthError?
    ensures r.Rethrown? ==> r.error == signIn.error
    ensures r.Message? <==> signIn.SignInThrew? && signIn.error.AuthError?
    ensures r.Message? ==> r.text in {InvalidCredentials, SomethingWentWrong}
    ensures r.Message? ==> (r.text == InvalidCredentials <==> signIn.error.kind == CredentialsSignin)
  {
    match signIn
    case SignedIn => Done
    case SignInThrew(AuthError(kind)) =>
      if kind == CredentialsSignin then Message(InvalidCredentials) else Message(SomethingWentWrong)
    case SignInThrew(e) => Rethrown(e)
  }
}
