/**
 * The invoice form schema of app/lib/action.ts: `FormSchema` with `id` and
 * `date` omitted (both `CreateInvoice` and `UpdateInvoice`), parsed with
 * `safeParse`, and the `error.flatten().fieldErrors` grouping the handlers
 * return. Zod parses every field of the object and collects one issue per
 * failing field, so the field rules are checked independently (no fail-fast).
 */
module FormValidation {

  /** The two values `z.enum(['paid', 'pending'])` admits. */
  datatype Status = Paid | Pending

  /** One value of `Object.fromEntries(formData)`: a missing key, a string, or an uploaded File. */
  datatype Entry = Absent | Text(text: string) | Upload

  /** The result of `z.coerce.number()`, i.e. of JavaScript's `Number(value)`. */
  datatype Number = Finite(value: real) | NaN

  /** The part of a submitted form the schema looks at; other keys (`id`, `date`, ...) are stripped. */
  datatype Submission = Submission(customerId: Entry, amount: Number, status: Entry)

  /** Keys of `fieldErrors`. */
  datatype Field = CustomerIdField | AmountField | StatusField

  /**
   * The kinds of zod default message this schema can produce: "Required" for an
   * `invalid_type` issue on a missing key, the default `invalid_type` text for a
   * present value of the wrong type, and the default `invalid_enum_value` text.
   */
  datatype DefaultMessage = MissingKey | InvalidType | InvalidEnumValue

  /** An issue message: a message written in the schema, or zod's default text of some kind. */
  datatype Msg = Custom(text: string) | ZodDefault(kind: DefaultMessage)

  const SelectCustomer := "please select a customer"
  const AmountGreaterThanZero := "please input amount greater than 0$"
  const SelectStatus := "please select a status"

  /** One zod issue, with the field it is about (its `path[0]`). */
  datatype Issue = Issue(field: Field, message: Msg)

  /** The outcome of one field rule. */
  datatype Check<+T> = Pass(value: T) | Fail(message: Msg)

  /** The typed data `safeParse` yields on success (`amount` still in currency units). */
  datatype InvoiceFields = InvoiceFields(customerId: string, amount: real, status: Status)

  /** `safeParse`'s result, with the error already flattened to its field errors. */
  datatype Validation = Success(data: InvoiceFields) | Failure(fieldErrors: map<Field, seq<Msg>>)

  /** `customerId` passes when it is a string, any string. */
  predicate CustomerIdOk(e: Entry)
  {
    e.Text?
  }

  /** The message `customerId` gets when it fails: "Required" when missing, the schema's text for a non-string. */
  function CustomerIdMessage(e: Entry): Msg
  {
    if e.Absent? then ZodDefault(MissingKey) else Custom(SelectCustomer)
  }

  /** `amount` passes when its coerced value is a number strictly greater than 0. */
  predicate AmountOk(n: Number)
  {
    n.Finite? && n.value > 0.0
  }

  /** The message `amount` gets when it fails: the type error for NaN, the schema's `gt` text otherwise. */
  function AmountMessage(n: Number): Msg
  {
    if n.NaN? then ZodDefault(InvalidType) else Custom(AmountGreaterThanZero)
  }

  /** `status` passes when it is exactly `'paid'` or `'pending'`. */
  predicate StatusOk(e: Entry)
  {
    e == Text("paid") || e == Text("pending")
  }

  /**
   * The message `status` gets when it fails: "Required" when missing, the schema's
   * text only for a present non-string, and zod's enum text for any other string.
   */
  function StatusMessage(e: Entry): Msg
  {
    if e.Absent? then ZodDefault(MissingKey)
    else if e.Upload? then Custom(SelectStatus)
    else ZodDefault(InvalidEnumValue)
  }

  /** `customerId: z.string({invalid_type_error: ...})`. */
  function CheckCustomerId(e: Entry): (c: Check<string>)
    ensures c.Pass? <==> CustomerIdOk(e)
    ensures c.Pass? ==> c.value == e.text
    ensures c.Fail? ==> c.message == CustomerIdMessage(e)
  {
    match e
    case Text(s) => Pass(s)
    case Absent => Fail(ZodDefault(MissingKey))
    case Upload => Fail(Custom(SelectCustomer))
  }

  /** `amount: z.coerce.number().gt(0, {message: ...})`: NaN fails the number type test first. */
  function CheckAmount(n: Number): (c: Check<real>)
    ensures c.Pass? <==> AmountOk(n)
    ensures c.Pass? ==> c.value == n.value
    ensures c.Fail? ==> c.message == AmountMessage(n)
  {
    match n
    case NaN => Fail(ZodDefault(InvalidType))
    case Finite(x) => if x > 0.0 then Pass(x) else Fail(Custom(AmountGreaterThanZero))
  }

  /** `status: z.enum(['paid', 'pending'], {invalid_type_error: ...})`. */
  function CheckStatus(e: Entry): (c: Check<Status>)
    ensures c.Pass? <==> StatusOk(e)
    ensures c.Pass? ==> (c.value == Paid <==> e == Text("paid"))
    ensures c.Fail? ==> c.message == StatusMessage(e)
  {
    match e
    case Text(s) =>
      if s == "paid" then Pass(Paid)
      else if s == "pending" then Pass(Pending)
      else Fail(ZodDefault(InvalidEnumValue))
    case Absent => Fail(ZodDefault(MissingKey))
    case Upload => Fail(Custom(SelectStatus))
  }

  /** The issue a failed rule contributes, if any. */
  function IssueOf<T>(f: Field, c: Check<T>): seq<Issue>
  {
    if c.Fail? then [Issue(f, c.message)] else []
  }

  /** The position of a field among the schema's keys. */
  function KeyOrder(f: Field): nat
  {
    match f
    case CustomerIdField => 0
    case AmountField => 1
    case StatusField => 2
  }

  /** All issues of one parse: one per failing key, in the schema's key order. */
  function Issues(s: Submission): (r: seq<Issue>)
    ensures r == [] <==> CustomerIdOk(s.customerId) && AmountOk(s.amount) && StatusOk(s.status)
    ensures forall i, j :: 0 <= i < j < |r| ==> KeyOrder(r[i].field) < KeyOrder(r[j].field)
  {
    IssueOf(CustomerIdField, CheckCustomerId(s.customerId))
    + IssueOf(AmountField, CheckAmount(s.amount))
    + IssueOf(StatusField, CheckStatus(s.status))
  }

  /** The messages of the issues about field `f`, in order (reference definition of the grouping). */
  function MessagesOn(issues: seq<Issue>, f: Field): seq<Msg>
  {
    if issues == [] then []
    else (if issues[0].field == f then [issues[0].message] else []) + MessagesOn(issues[1..], f)
  }

  lemma {:induction false} MessagesOnAppend(issues: seq<Issue>, i: Issue, f: Field)
    ensures MessagesOn(issues + [i], f) == MessagesOn(issues, f) + (if i.field == f then [i.message] else [])
  {
    if issues != [] {
      assert (issues + [i])[1..] == issues[1..] + [i];
      MessagesOnAppend(issues[1..], i, f);
    }
  }

  lemma {:induction false} MessagesOnConcat(a: seq<Issue>, b: seq<Issue>, f: Field)
    ensures MessagesOn(a + b, f) == MessagesOn(a, f) + MessagesOn(b, f)
  {
    if a != [] {
      assert (a + b)[0] == a[0] && (a + b)[1..] == a[1..] + b;
      MessagesOnConcat(a[1..], b, f);
      var head := if a[0].field == f then [a[0].message] else [];
      assert MessagesOn(a + b, f) == head + (MessagesOn(a[1..], f) + MessagesOn(b, f));
    } else {
      assert a + b == b;
    }
  }

  /**
   * `error.flatten().fieldErrors`: walk the issues in order, appending each
   * message to the list of its field; fields without issues get no key.
   */
  function FieldErrors(issues: seq<Issue>): (m: map<Field, seq<Msg>>)
    ensures forall f :: f in m <==> MessagesOn(issues, f) != []
    ensures forall f :: f in m ==> m[f] == MessagesOn(issues, f)
    decreases |issues|
  {
    if issues == [] then map[]
    else
      var front, last := issues[..|issues| - 1], issues[|issues| - 1];
      var m := FieldErrors(front);
      GroupLast(front, last, m);
      assert issues == front + [last];
      m[last.field := (if last.field in m then m[last.field] else []) + [last.message]]
  }

  /** One step of the grouping: appending the last issue's message to its field keeps the map exact. */
  lemma GroupLast(front: seq<Issue>, last: Issue, m: map<Field, seq<Msg>>)
    requires forall f :: f in m <==> MessagesOn(front, f) != []
    requires forall f :: f in m ==> m[f] == MessagesOn(front, f)
    ensures var m' := m[last.field := (if last.field in m then m[last.field] else []) + [last.message]];
      && (forall f :: f in m' <==> MessagesOn(front + [last], f) != [])
      && (forall f :: f in m' ==> m'[f] == MessagesOn(front + [last], f))
  {
    forall f ensures MessagesOn(front + [last], f) == MessagesOn(front, f) + (if last.field == f then [last.message] else []) {
      MessagesOnAppend(front, last, f);
    }
  }

  /** The messages a rule's outcome contributes. */
  function MessagesOf<T>(c: Check<T>): seq<Msg>
  {
    if c.Fail? then [c.message] else []
  }

  /** Each field has one key in the flattened errors exactly when its own rule fails, holding that rule's message. */
  lemma FieldErrorsByRule(s: Submission)
    ensures var m, c := FieldErrors(Issues(s)), CheckCustomerId(s.customerId);
      (CustomerIdField in m <==> c.Fail?) && (c.Fail? ==> m[CustomerIdField] == [c.message])
    ensures var m, c := FieldErrors(Issues(s)), CheckAmount(s.amount);
      (AmountField in m <==> c.Fail?) && (c.Fail? ==> m[AmountField] == [c.message])
    ensures var m, c := FieldErrors(Issues(s)), CheckStatus(s.status);
      (StatusField in m <==> c.Fail?) && (c.Fail? ==> m[StatusField] == [c.message])
  {
    IssuesByField(s);
    var m := FieldErrors(Issues(s));
    assert CustomerIdField in m <==> MessagesOn(Issues(s), CustomerIdField) != [];
    assert AmountField in m <==> MessagesOn(Issues(s), AmountField) != [];
    assert StatusField in m <==> MessagesOn(Issues(s), StatusField) != [];
  }

  /** Each field's issues come from its own rule alone. */
  lemma IssuesByField(s: Submission)
    ensures MessagesOn(Issues(s), CustomerIdField) == MessagesOf(CheckCustomerId(s.customerId))
    ensures MessagesOn(Issues(s), AmountField) == MessagesOf(CheckAmount(s.amount))
    ensures MessagesOn(Issues(s), StatusField) == MessagesOf(CheckStatus(s.status))
  {
    var ic := IssueOf(CustomerIdField, CheckCustomerId(s.customerId));
    var ia := IssueOf(AmountField, CheckAmount(s.amount));
    var ist := IssueOf(StatusField, CheckStatus(s.status));
    assert Issues(s) == (ic + ia) + ist;
    forall f ensures MessagesOn(Issues(s), f) == MessagesOn(ic, f) + MessagesOn(ia, f) + MessagesOn(ist, f) {
      MessagesOnConcat(ic + ia, ist, f);
      MessagesOnConcat(ic, ia, f);
    }
    MessagesOnIssueOf(CustomerIdField, CheckCustomerId(s.customerId), CustomerIdField);
    MessagesOnIssueOf(AmountField, CheckAmount(s.amount), CustomerIdField);
    MessagesOnIssueOf(StatusField, CheckStatus(s.status), CustomerIdField);
    assert MessagesOn(Issues(s), CustomerIdField) == MessagesOn(ic, CustomerIdField) + [] + [];
    MessagesOnIssueOf(CustomerIdField, CheckCustomerId(s.customerId), AmountField);
    MessagesOnIssueOf(AmountField, CheckAmount(s.amount), AmountField);
    MessagesOnIssueOf(StatusField, CheckStatus(s.status), AmountField);
    assert MessagesOn(Issues(s), AmountField) == [] + MessagesOn(ia, AmountField) + [];
    MessagesOnIssueOf(CustomerIdField, CheckCustomerId(s.customerId), StatusField);
    MessagesOnIssueOf(AmountField, CheckAmount(s.amount), StatusField);
    MessagesOnIssueOf(StatusField, CheckStatus(s.status), StatusField);
    assert MessagesOn(Issues(s), StatusField) == [] + [] + MessagesOn(ist, StatusField);
  }

  lemma MessagesOnIssueOf<T>(g: Field, c: Check<T>, f: Field)
    ensures MessagesOn(IssueOf(g, c), f) == if g == f then MessagesOf(c) else []
  {
    if c.Fail? {
      assert IssueOf(g, c)[1..] == [];
    }
  }

  /** The three field rules, stated independently of the parser. */
  predicate Accepts(s: Submission)
  {
    CustomerIdOk(s.customerId) && AmountOk(s.amount) && StatusOk(s.status)
  }

  /**
   * `UpdateInvoice.safeParse` / `CreateInvoice.safeParse` followed by
   * `error.flatten().fieldErrors` on failure.
   */
  function Validate(s: Submission): (r: Validation)
    ensures r.Success? <==> Accepts(s)
    ensures r.Success? ==>
      && r.data.customerId == s.customerId.text
      && r.data.amount == s.amount.value
      && (r.data.status == Paid <==> s.status == Text("paid"))
    ensures r.Failure? ==> r.fieldErrors != map[]
    ensures r.Failure? ==> (CustomerIdField in r.fieldErrors <==> !CustomerIdOk(s.customerId))
    ensures r.Failure? ==> (AmountField in r.fieldErrors <==> !AmountOk(s.amount))
    ensures r.Failure? ==> (StatusField in r.fieldErrors <==> !StatusOk(s.status))
    ensures r.Failure? && CustomerIdField in r.fieldErrors ==>
      r.fieldErrors[CustomerIdField] == [CustomerIdMessage(s.customerId)]
    ensures r.Failure? && AmountField in r.fieldErrors ==>
      r.fieldErrors[AmountField] == [AmountMessage(s.amount)]
    ensures r.Failure? && StatusField in r.fieldErrors ==>
      r.fieldErrors[StatusField] == [StatusMessage(s.status)]
  {
    var c, a, st := CheckCustomerId(s.customerId), CheckAmount(s.amount), CheckStatus(s.status);
    if c.Pass? && a.Pass? && st.Pass? then
      Success(InvoiceFields(c.value, a.value, st.value))
    else
      FieldErrorsByRule(s);
      Failure(FieldErrors(Issues(s)))
  }
}
