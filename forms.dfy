/** What the four creation forms share: the enum names their selects
    produce, the category filter behind their category pickers, and the way
    a submit settles (dialog, reset, toast). */
module Forms {
  import opened Wrappers
  import opened Domain
  import Api

  /** The wire names of the transaction types. */
  function TxTypeName(t: TxType): string
  {
    match t
    case Income => "INCOME"
    case Expense => "EXPENSE"
    case Transfer => "TRANSFER"
  }

  /** `z.enum(['INCOME', 'EXPENSE', 'TRANSFER'])`: the type a name stands
      for, if it is one of the three. */
  function TxTypeOf(s: string): Option<TxType>
  {
    if s == "INCOME" then Some(Income)
    else if s == "EXPENSE" then Some(Expense)
    else if s == "TRANSFER" then Some(Transfer)
    else None
  }

  /** A name is accepted exactly when it is the wire name of a type, and
      then it reads as that type. */
  lemma TxTypeNames(s: string, t: TxType)
    ensures TxTypeOf(s) == Some(t) <==> s == TxTypeName(t)
  {
  }

  /** The category type the pickers show for a transaction type: a transfer
      is filed under expense categories. */
  function OfferedFor(t: TxType): (c: CategoryType)
    ensures t != Transfer ==> c == t
    ensures t == Transfer ==> c == Expense
  {
    if t == Transfer then Expense else t
  }

  /** `categories.filter(cat => cat.type === ty)`. */
  function CategoriesOfType(cs: seq<Category>, ty: CategoryType): (r: seq<Category>)
    ensures |r| <= |cs|
  {
    if cs == [] then []
    else
      var last := cs[|cs| - 1];
      CategoriesOfType(cs[..|cs| - 1], ty) + (if last.categoryType == ty then [last] else [])
  }

  /** The filter keeps exactly the categories of the type. */
  lemma {:induction false} CategoriesOfTypeMembers(cs: seq<Category>, ty: CategoryType)
    ensures forall c :: c in CategoriesOfType(cs, ty) <==> c in cs && c.categoryType == ty
    decreases |cs|
  {
    if cs != [] {
      CategoriesOfTypeMembers(cs[..|cs| - 1], ty);
      assert cs == cs[..|cs| - 1] + [cs[|cs| - 1]];
    }
  }

  /** The filter keeps the categories' relative order: filtering a
      concatenation concatenates the filtered parts. */
  lemma {:induction false} CategoriesOfTypeConcat(a: seq<Category>, b: seq<Category>, ty: CategoryType)
    ensures CategoriesOfType(a + b, ty) == CategoriesOfType(a, ty) + CategoriesOfType(b, ty)
    decreases |b|
  {
    if b == [] {
      assert a + b == a;
    } else {
      assert (a + b)[..|a + b| - 1] == a + b[..|b| - 1];
      CategoriesOfTypeConcat(a, b[..|b| - 1], ty);
    }
  }

  datatype Toast = SuccessToast(text: string) | ErrorToast(text: string)

  /** `error.message || fallback`. */
  function ErrorText(message: string, fallback: string): (text: string)
    ensures message != "" ==> text == message
    ensures message == "" ==> text == fallback
  {
    if message != "" then message else fallback
  }

  /** An error thrown by the API service shows its own text, except when the
      server's message is truthy but reads as empty (`[]`, say): then the
      form's fallback text is what the toast shows. */
  lemma ApiErrorsShowTheirMessage(body: Api.ErrorBody, fallback: string)
    ensures !Api.EmptyMessage(body) ==> ErrorText(Api.ErrorMessage(body), fallback) == Api.ErrorMessage(body)
    ensures Api.EmptyMessage(body) ==> ErrorText(Api.ErrorMessage(body), fallback) == fallback
  {
    Api.ErrorMessageCases(body);
  }

  /** How a submit ends: whether the dialog closes, whether the form goes
      back to its defaults, and the toast. */
  datatype Outcome = Outcome(closeDialog: bool, resetForm: bool, toast: Toast)

  /** The `try`/`catch` around the create call: reset and close only after
      success; after failure the dialog stays open with the values kept. */
  function Settle(reply: Result<(), string>, successText: string, fallback: string): (o: Outcome)
    ensures o.closeDialog <==> reply.Success?
    ensures o.resetForm <==> reply.Success?
    ensures reply.Success? ==> o.toast == SuccessToast(successText)
    ensures reply.Failure? ==> o.toast == ErrorToast(ErrorText(reply.error, fallback))
  {
    if reply.Success? then Outcome(true, true, SuccessToast(successText))
    else Outcome(false, false, ErrorToast(ErrorText(reply.error, fallback)))
  }
}
