/** The new-account dialog: its schema, its defaults, the currency choices,
    the request it builds and how a submit settles. */
module AccountForm {
  import opened Wrappers
  import opened Domain
  import Text
  import QueryKeys
  import opened Forms

  datatype Values = Values(name: string, accountType: string, balance: string, currency: string)

  function AccountTypeName(t: AccountType): string
  {
    match t
    case Checking => "CHECKING"
    case Savings => "SAVINGS"
    case CreditCard => "CREDIT_CARD"
    case Investment => "INVESTMENT"
    case Cash => "CASH"
  }

  /** `z.enum(['CHECKING', 'SAVINGS', 'CREDIT_CARD', 'INVESTMENT', 'CASH'])`. */
  function AccountTypeOf(s: string): Option<AccountType>
  {
    if s == "CHECKING" then Some(Checking)
    else if s == "SAVINGS" then Some(Savings)
    else if s == "CREDIT_CARD" then Some(CreditCard)
    else if s == "INVESTMENT" then Some(Investment)
    else if s == "CASH" then Some(Cash)
    else None
  }

  /** A name is accepted exactly when it names an account type, and reads
      as it. */
  lemma AccountTypeNames(s: string, t: AccountType)
    ensures AccountTypeOf(s) == Some(t) <==> s == AccountTypeName(t)
  {
  }

  /** `accountSchema`: a name of at least three characters, a known type, a
      balance and a currency. */
  predicate Valid(v: Values)
  {
    |v.name| >= 3 && AccountTypeOf(v.accountType).Some? && |v.balance| >= 1 && |v.currency| >= 1
  }

  /** The currency select's choices. */
  const CURRENCIES: seq<string> := ["MGA", "EUR", "USD"]

  /** `defaultValues`. */
  function Defaults(): Values
  {
    Values("", "CHECKING", "0", "MGA")
  }

  /** A fresh form is a checking account with balance 0 in ariary, one of the
      offered currencies; the name is the only field left to fill, and any
      name of three characters or more makes it submittable. */
  lemma DefaultsNeedOnlyAName(name: string)
    ensures AccountTypeOf(Defaults().accountType) == Some(Checking)
    ensures Defaults().currency in CURRENCIES
    ensures !Valid(Defaults())
    ensures Valid(Defaults().(name := name)) <==> |name| >= 3
  {
  }

  /** Every offered currency passes the schema. */
  lemma CurrenciesAreValid(v: Values, c: string)
    requires c in CURRENCIES
    ensures Valid(v.(currency := c)) <==> |v.name| >= 3 && AccountTypeOf(v.accountType).Some? && |v.balance| >= 1
  {
  }

  /** `CreateAccountRequest`; `None` stands for NaN. */
  datatype Request = Request(name: string, accountType: AccountType, balance: Option<real>, currency: string)

  function RequestOf(v: Values): (r: Request)
    requires Valid(v)
    ensures r.name == v.name && r.accountType == AccountTypeOf(v.accountType).value && r.currency == v.currency
  {
    Request(v.name, AccountTypeOf(v.accountType).value, Text.ParseFloatPrefix(v.balance), v.currency)
  }

  /** The default balance is sent as zero, and any whole-number balance as
      that number. */
  lemma BalanceReachesTheRequest(v: Values, balance: int)
    requires Valid(v) && v.balance == Text.IntToString(balance)
    ensures RequestOf(v).balance == Some(balance as real)
    ensures Valid(Defaults().(name := v.name)) ==> RequestOf(Defaults().(name := v.name)).balance == Some(0.0)
  {
    Text.ParseFloatOfInt(balance);
    Text.ParseFloatOfInt(0);
  }

  const SUCCESS_TEXT := "Compte créé avec succès"
  const FAILURE_TEXT := "Erreur lors de la création du compte"

  datatype Submission = Submission(request: Request, outcome: Outcome, invalidated: seq<QueryKeys.QueryKey>)

  /** `form.handleSubmit(onSubmit)` with `reply` how `useCreateAccount`'s
      call ended. */
  function Submit(v: Values, reply: Result<(), string>): (s: Option<Submission>)
    ensures s.Some? <==> Valid(v)
  {
    if !Valid(v) then None
    else Some(Submission(RequestOf(v), Settle(reply, SUCCESS_TEXT, FAILURE_TEXT),
                         QueryKeys.OnSettled(QueryKeys.CreateAccount, reply.Success?)))
  }

  /** Success closes and resets the dialog and refreshes the account list
      and the dashboard summary; failure keeps the dialog, refreshes nothing
      and shows the error's message or the form's own text. */
  lemma SubmitSettles(v: Values, reply: Result<(), string>)
    requires Valid(v)
    ensures var s := Submit(v, reply).value;
      reply.Success? ==> (s.outcome.closeDialog && s.outcome.resetForm &&
        s.outcome.toast == SuccessToast(SUCCESS_TEXT) &&
        QueryKeys.Accounts() in s.invalidated && QueryKeys.DashboardSummary(None) in s.invalidated)
    ensures var s := Submit(v, reply).value;
      reply.Failure? ==> (!s.outcome.closeDialog && !s.outcome.resetForm && s.invalidated == [] &&
        s.outcome.toast == ErrorToast(if reply.error != "" then reply.error else FAILURE_TEXT))
  {
  }
}
