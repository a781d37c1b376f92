/**
 * The validations concern every per-country bank-account class includes:
 * three independent format validators that append a `:base` error each,
 * the derived routing number, the masked account number and `to_hash`,
 * together with the per-class overrides of those (Armenia's routing number,
 * the country-prefixed display of Nigeria and Israel, the production-only
 * account check of Nigeria, Malaysia and Israel, the Dominican Republic's
 * presence checks and the account-type default of Colombia and Chile).
 */
module BankAccountValidations {
  import opened Wrappers
  import opened Patterns
  import opened CountryTable
  import opened RubyStrings

  // ---------------------------------------------------------------------
  // Errors
  // ---------------------------------------------------------------------

  datatype Attribute = Base | BankCode | AccountNumber | AccountType

  /** One entry of the record's `errors`. */
  datatype Error = Error(attribute: Attribute, message: string)

  const BankCodeInvalid := Error(Base, "The bank code is invalid.")
  const BranchCodeInvalid := Error(Base, "The branch code is invalid.")
  const AccountNumberInvalid := Error(Base, "The account number is invalid.")
  /** Rails' default messages for `presence: true` and `inclusion: { in: ... }`. */
  const BankCodeBlank := Error(BankCode, "can't be blank")
  const AccountNumberBlank := Error(AccountNumber, "can't be blank")
  const AccountTypeNotIncluded := Error(AccountType, "is not included in the list")

  /** The errors a check reports: its own error when it fails, nothing otherwise. */
  function Reported(fails: bool, e: Error): seq<Error>
  {
    if fails then [e] else []
  }

  // ---------------------------------------------------------------------
  // The record and its surroundings
  // ---------------------------------------------------------------------

  /**
   * The attributes of a bank-account record that the validations read. The
   * account number is the decrypted one; its last four characters come from
   * the base class and are taken as given.
   */
  datatype Fields = Fields(
    bankCode: Option<string>,
    branchCode: Option<string>,
    accountNumber: Option<string>,
    accountNumberLastFour: Option<string>,
    accountType: Option<string>)

  /** A country's `AccountType` module: the CHECKING constant and `AccountType.all`. */
  datatype AccountTypes = AccountTypes(checking: string, all: set<string>)

  /**
   * What the validations take from outside the record: whether the process
   * runs in production, the IBAN library's verdict on an account number, and
   * the AccountType modules of Colombia and Chile.
   */
  datatype Env = Env(
    production: bool,
    ibanValid: Option<string> -> bool,
    colombiaTypes: AccountTypes,
    chileTypes: AccountTypes)

  // ---------------------------------------------------------------------
  // The three validators of the concern
  // ---------------------------------------------------------------------

  /** validate_bank_code passes: the class defines no bank-code regex, or `bank_code.to_s` matches it. */
  predicate BankCodeAccepted(c: AccountClass, bankCode: Option<string>)
  {
    c.bankCodeFormat.None? || Accepts(c.bankCodeFormat.value, ToS(bankCode))
  }

  /** validate_branch_code passes. */
  predicate BranchCodeAccepted(c: AccountClass, branchCode: Option<string>)
  {
    c.branchCodeFormat.None? || Accepts(c.branchCodeFormat.value, ToS(branchCode))
  }

  /** The classes the concern sends to the IBAN library instead of a regex. */
  predicate UsesIban(c: AccountClass)
  {
    c.id == Kuwait || c.id == Israel
  }

  /** validate_account_number passes. */
  predicate AccountNumberAccepted(c: AccountClass, accountNumber: Option<string>, ibanValid: Option<string> -> bool)
  {
    if UsesIban(c) then ibanValid(accountNumber)
    else c.accountNumberFormat.None? || Accepts(c.accountNumberFormat.value, ToS(accountNumber))
  }

  function BankCodeErrors(c: AccountClass, bankCode: Option<string>): seq<Error>
  {
    Reported(!BankCodeAccepted(c, bankCode), BankCodeInvalid)
  }

  function BranchCodeErrors(c: AccountClass, branchCode: Option<string>): seq<Error>
  {
    Reported(!BranchCodeAccepted(c, branchCode), BranchCodeInvalid)
  }

  function AccountNumberErrors(c: AccountClass, accountNumber: Option<string>, ibanValid: Option<string> -> bool): seq<Error>
  {
    Reported(!AccountNumberAccepted(c, accountNumber, ibanValid), AccountNumberInvalid)
  }

  /**
   * Nigeria, Malaysia and Israel register validate_account_number a second
   * time with `if: Rails.env.production?`; Rails keeps one registration per
   * symbol, the later one, so in these classes the check runs only in production.
   */
  predicate ProductionOnlyAccountCheck(c: AccountClass)
  {
    c.id == Nigeria || c.id == Malaysia || c.id == Israel
  }

  predicate AccountCheckRuns(c: AccountClass, production: bool)
  {
    !ProductionOnlyAccountCheck(c) || production
  }

  // ---------------------------------------------------------------------
  // The per-class validations declared after the concern
  // ---------------------------------------------------------------------

  /** Colombia and Chile default and then check `account_type`. */
  function AccountTypesOf(c: AccountClass, env: Env): Option<AccountTypes>
  {
    if c.id == Colombia then Some(env.colombiaTypes)
    else if c.id == Chile then Some(env.chileTypes)
    else None
  }

  /** The before_validation hook on create: a nil account type becomes CHECKING. */
  function BeforeValidation(c: AccountClass, f: Fields, env: Env, onCreate: bool): Fields
  {
    match AccountTypesOf(c, env)
    case Some(types) =>
      if onCreate && f.accountType.None? then f.(accountType := Some(types.checking)) else f
    case None => f
  }

  /** The Dominican Republic's `validates :bank_code, presence: true` and `validates :account_number, presence: true`. */
  function PresenceErrors(f: Fields): seq<Error>
  {
    Reported(Blank(f.bankCode), BankCodeBlank) + Reported(Blank(f.accountNumber), AccountNumberBlank)
  }

  /** nil is never in the list. */
  predicate AccountTypeIncluded(accountType: Option<string>, types: AccountTypes)
  {
    accountType.Some? && accountType.value in types.all
  }

  /** `validates :account_type, inclusion: { in: AccountType.all }`: nil is not included. */
  function InclusionErrors(accountType: Option<string>, types: AccountTypes): seq<Error>
  {
    Reported(!AccountTypeIncluded(accountType, types), AccountTypeNotIncluded)
  }

  /** The errors of the three validators the concern registers, in registration order. */
  function ConcernErrors(c: AccountClass, f: Fields, env: Env): seq<Error>
  {
    BankCodeErrors(c, f.bankCode)
    + BranchCodeErrors(c, f.branchCode)
    + (if AccountCheckRuns(c, env.production) then AccountNumberErrors(c, f.accountNumber, env.ibanValid) else [])
  }

  /** The errors of the validations a class declares after including the concern. */
  function ClassErrors(c: AccountClass, f: Fields, env: Env): seq<Error>
  {
    (if c.id == DominicanRepublic then PresenceErrors(f) else [])
    + match AccountTypesOf(c, env)
      case Some(types) => InclusionErrors(f.accountType, types)
      case None => []
  }

  /** The errors one validation pass leaves, in the order the validators are registered. */
  function ValidationErrors(c: AccountClass, f: Fields, env: Env): seq<Error>
  {
    ConcernErrors(c, f, env) + ClassErrors(c, f, env)
  }

  // ---------------------------------------------------------------------
  // Derived values
  // ---------------------------------------------------------------------

  /** The concern's routing_number. */
  function ConcernRoutingNumber(c: AccountClass, bankCode: Option<string>, branchCode: Option<string>): Option<string>
  {
    if c.id == Israel then None
    else if Present(branchCode) then
      if c.id == Japan then Some(ToS(bankCode) + ToS(branchCode))
      else Some(ToS(bankCode) + "-" + ToS(branchCode))
    else Some(ToS(bankCode))
  }

  /** routing_number as each class answers it: Armenia overrides the concern. */
  function RoutingNumber(c: AccountClass, bankCode: Option<string>, branchCode: Option<string>): Option<string>
  {
    if c.id == Armenia then Some(ToS(bankCode)) else ConcernRoutingNumber(c, bankCode, branchCode)
  }

  const Mask := "******"

  /** Nigeria and Israel override account_number_visual to put their country code first. */
  predicate PrefixedVisual(c: AccountClass)
  {
    c.id == Nigeria || c.id == Israel
  }

  /** The text in front of the mask: the class's ISO alpha-2 code, or nothing. */
  function VisualPrefix(c: AccountClass): string
  {
    if PrefixedVisual(c) && c.country.Fixed? then c.country.alpha2 else ""
  }

  /** account_number_visual. */
  function Visual(c: AccountClass, lastFour: Option<string>): string
  {
    VisualPrefix(c) + Mask + ToS(lastFour)
  }

  const RoutingNumberKey := "routing_number"
  const AccountNumberKey := "account_number"
  const BankAccountTypeKey := "bank_account_type"

  /** to_hash: the routing number (nil included), the masked number and the type code. */
  function ToHash(c: AccountClass, f: Fields): map<string, Option<string>>
  {
    map[RoutingNumberKey := RoutingNumber(c, f.bankCode, f.branchCode),
        AccountNumberKey := Some(Visual(c, f.accountNumberLastFour)),
        BankAccountTypeKey := Some(c.typeCode)]
  }

  /**
   * `country`: a fixed code, or for EuropeanBankAccount the ISO 3166 country
   * named by the first two characters of the decrypted account number. None
   * stands for the exception Ruby raises when there is no account number or
   * `lookup` (ISO3166::Country[...]) finds no country.
   */
  function CountryCode(c: AccountClass, accountNumber: Option<string>, lookup: string -> Option<string>): Option<string>
  {
    match c.country
    case Fixed(_, alpha2) => Some(alpha2)
    case FromAccountNumberPrefix =>
      match accountNumber
      case None => None
      case Some(s) => lookup(if |s| <= 2 then s else s[..2])
  }

  // ---------------------------------------------------------------------
  // Properties of one validation pass
  // ---------------------------------------------------------------------

  /** 1 when the check fails, 0 when it passes. */
  function Failed(fails: bool): nat
  {
    if fails then 1 else 0
  }

  lemma InReported(fails: bool, e: Error, x: Error)
    ensures x in Reported(fails, e) <==> fails && x == e
    ensures |Reported(fails, e)| == Failed(fails)
  {
  }

  /** The six errors a pass can report differ from one another. */
  lemma ErrorsDistinct()
    ensures BankCodeInvalid != BranchCodeInvalid && BankCodeInvalid != AccountNumberInvalid
    ensures BranchCodeInvalid != AccountNumberInvalid
    ensures BankCodeBlank != AccountNumberBlank && BankCodeBlank != AccountTypeNotIncluded
    ensures AccountNumberBlank != AccountTypeNotIncluded
  {
    assert |BankCodeInvalid.message| == 25;
    assert |BranchCodeInvalid.message| == 27;
    assert |AccountNumberInvalid.message| == 30;
  }

  /** Six checks reporting six different errors: each error is there exactly when its check fails. */
  lemma SixReports(b1: bool, b2: bool, b3: bool, b4: bool, b5: bool, b6: bool,
                   e1: Error, e2: Error, e3: Error, e4: Error, e5: Error, e6: Error)
    requires e1 != e2 && e1 != e3 && e1 != e4 && e1 != e5 && e1 != e6
    requires e2 != e3 && e2 != e4 && e2 != e5 && e2 != e6
    requires e3 != e4 && e3 != e5 && e3 != e6
    requires e4 != e5 && e4 != e6 && e5 != e6
    ensures var errs := Reported(b1, e1) + Reported(b2, e2) + Reported(b3, e3)
        + (Reported(b4, e4) + Reported(b5, e5) + Reported(b6, e6));
      && (e1 in errs <==> b1) && (e2 in errs <==> b2) && (e3 in errs <==> b3)
      && (e4 in errs <==> b4) && (e5 in errs <==> b5) && (e6 in errs <==> b6)
  {
    var errs := Reported(b1, e1) + Reported(b2, e2) + Reported(b3, e3)
        + (Reported(b4, e4) + Reported(b5, e5) + Reported(b6, e6));
    assert e1 in errs <==> b1 by { InSix(e1, b1, b2, b3, b4, b5, b6, e1, e2, e3, e4, e5, e6); }
    assert e2 in errs <==> b2 by { InSix(e2, b1, b2, b3, b4, b5, b6, e1, e2, e3, e4, e5, e6); }
    assert e3 in errs <==> b3 by { InSix(e3, b1, b2, b3, b4, b5, b6, e1, e2, e3, e4, e5, e6); }
    assert e4 in errs <==> b4 by { InSix(e4, b1, b2, b3, b4, b5, b6, e1, e2, e3, e4, e5, e6); }
    assert e5 in errs <==> b5 by { InSix(e5, b1, b2, b3, b4, b5, b6, e1, e2, e3, e4, e5, e6); }
    assert e6 in errs <==> b6 by { InSix(e6, b1, b2, b3, b4, b5, b6, e1, e2, e3, e4, e5, e6); }
  }

  /** Six checks reporting one error each: as many errors as failing checks. */
  lemma SixReportsLength(b1: bool, b2: bool, b3: bool, b4: bool, b5: bool, b6: bool,
                         e1: Error, e2: Error, e3: Error, e4: Error, e5: Error, e6: Error)
    ensures |Reported(b1, e1) + Reported(b2, e2) + Reported(b3, e3)
        + (Reported(b4, e4) + Reported(b5, e5) + Reported(b6, e6))|
      == Failed(b1) + Failed(b2) + Failed(b3) + Failed(b4) + Failed(b5) + Failed(b6)
  {
    InReported(b1, e1, e1);
    InReported(b2, e2, e2);
    InReported(b3, e3, e3);
    InReported(b4, e4, e4);
    InReported(b5, e5, e5);
    InReported(b6, e6, e6);
  }

  lemma InSix(x: Error, b1: bool, b2: bool, b3: bool, b4: bool, b5: bool, b6: bool,
              e1: Error, e2: Error, e3: Error, e4: Error, e5: Error, e6: Error)
    ensures x in Reported(b1, e1) + Reported(b2, e2) + Reported(b3, e3)
        + (Reported(b4, e4) + Reported(b5, e5) + Reported(b6, e6))
      <==> ((b1 && x == e1) || (b2 && x == e2) || (b3 && x == e3)
        || (b4 && x == e4) || (b5 && x == e5) || (b6 && x == e6))
  {
    InReported(b1, e1, x);
    InReported(b2, e2, x);
    InReported(b3, e3, x);
    InReported(b4, e4, x);
    InReported(b5, e5, x);
    InReported(b6, e6, x);
  }

  /** One pass is the six checks' reports, in registration order. */
  lemma ReportsOfPass(c: AccountClass, f: Fields, env: Env)
    ensures var t := AccountTypesOf(c, env);
      ValidationErrors(c, f, env)
      == Reported(!BankCodeAccepted(c, f.bankCode), BankCodeInvalid)
       + Reported(!BranchCodeAccepted(c, f.branchCode), BranchCodeInvalid)
       + Reported(AccountCheckRuns(c, env.production) && !AccountNumberAccepted(c, f.accountNumber, env.ibanValid),
                  AccountNumberInvalid)
       + (Reported(c.id == DominicanRepublic && Blank(f.bankCode), BankCodeBlank)
          + Reported(c.id == DominicanRepublic && Blank(f.accountNumber), AccountNumberBlank)
          + Reported(t.Some? && !AccountTypeIncluded(f.accountType, t.value), AccountTypeNotIncluded))
  {
    var t := AccountTypesOf(c, env);
    assert (if c.id == DominicanRepublic then PresenceErrors(f) else [])
      == Reported(c.id == DominicanRepublic && Blank(f.bankCode), BankCodeBlank)
       + Reported(c.id == DominicanRepublic && Blank(f.accountNumber), AccountNumberBlank);
  }

  /**
   * Every validator runs and nothing is short-circuited: each error is in
   * the list exactly when the check that reports it fails.
   */
  lemma ErrorsReportEachFailingCheck(c: AccountClass, f: Fields, env: Env)
    ensures var errs := ValidationErrors(c, f, env);
      && (BankCodeInvalid in errs <==> !BankCodeAccepted(c, f.bankCode))
      && (BranchCodeInvalid in errs <==> !BranchCodeAccepted(c, f.branchCode))
      && (AccountNumberInvalid in errs
          <==> AccountCheckRuns(c, env.production) && !AccountNumberAccepted(c, f.accountNumber, env.ibanValid))
      && (BankCodeBlank in errs <==> c.id == DominicanRepublic && Blank(f.bankCode))
      && (AccountNumberBlank in errs <==> c.id == DominicanRepublic && Blank(f.accountNumber))
      && (AccountTypeNotIncluded in errs
          <==> AccountTypesOf(c, env).Some? && !AccountTypeIncluded(f.accountType, AccountTypesOf(c, env).value))
  {
    var t := AccountTypesOf(c, env);
    ReportsOfPass(c, f, env);
    ErrorsDistinct();
    SixReports(
      !BankCodeAccepted(c, f.bankCode),
      !BranchCodeAccepted(c, f.branchCode),
      AccountCheckRuns(c, env.production) && !AccountNumberAccepted(c, f.accountNumber, env.ibanValid),
      c.id == DominicanRepublic && Blank(f.bankCode),
      c.id == DominicanRepublic && Blank(f.accountNumber),
      t.Some? && !AccountTypeIncluded(f.accountType, t.value),
      BankCodeInvalid, BranchCodeInvalid, AccountNumberInvalid, BankCodeBlank, AccountNumberBlank, AccountTypeNotIncluded);
  }

  /** Each failing check adds exactly one error, so a pass reports as many errors as checks that fail. */
  lemma ErrorCountIsFailingChecks(c: AccountClass, f: Fields, env: Env)
    ensures |ValidationErrors(c, f, env)|
      == Failed(!BankCodeAccepted(c, f.bankCode))
       + Failed(!BranchCodeAccepted(c, f.branchCode))
       + Failed(AccountCheckRuns(c, env.production) && !AccountNumberAccepted(c, f.accountNumber, env.ibanValid))
       + Failed(c.id == DominicanRepublic && Blank(f.bankCode))
       + Failed(c.id == DominicanRepublic && Blank(f.accountNumber))
       + Failed(AccountTypesOf(c, env).Some? && !AccountTypeIncluded(f.accountType, AccountTypesOf(c, env).value))
  {
    var t := AccountTypesOf(c, env);
    ReportsOfPass(c, f, env);
    SixReportsLength(
      !BankCodeAccepted(c, f.bankCode),
      !BranchCodeAccepted(c, f.branchCode),
      AccountCheckRuns(c, env.production) && !AccountNumberAccepted(c, f.accountNumber, env.ibanValid),
      c.id == DominicanRepublic && Blank(f.bankCode),
      c.id == DominicanRepublic && Blank(f.accountNumber),
      t.Some? && !AccountTypeIncluded(f.accountType, t.value),
      BankCodeInvalid, BranchCodeInvalid, AccountNumberInvalid, BankCodeBlank, AccountNumberBlank, AccountTypeNotIncluded);
  }

  /** The record is valid exactly when every check its class declares passes. */
  lemma ValidIffEveryCheckPasses(c: AccountClass, f: Fields, env: Env)
    ensures ValidationErrors(c, f, env) == []
        <==> && BankCodeAccepted(c, f.bankCode)
             && BranchCodeAccepted(c, f.branchCode)
             && (AccountCheckRuns(c, env.production) ==> AccountNumberAccepted(c, f.accountNumber, env.ibanValid))
             && (c.id == DominicanRepublic ==> Present(f.bankCode) && Present(f.accountNumber))
             && (AccountTypesOf(c, env).Some? ==> AccountTypeIncluded(f.accountType, AccountTypesOf(c, env).value))
  {
    ErrorCountIsFailingChecks(c, f, env);
  }

  /**
   * Outside production, Nigeria, Malaysia and Israel accept any account
   * number; in production their account number is checked like everyone else's.
   */
  lemma ProductionOnlyAccountGuard(c: AccountClass, f: Fields, env: Env)
    requires ProductionOnlyAccountCheck(c)
    ensures !env.production ==> AccountNumberInvalid !in ValidationErrors(c, f, env)
    ensures env.production ==>
      (AccountNumberInvalid in ValidationErrors(c, f, env) <==> !AccountNumberAccepted(c, f.accountNumber, env.ibanValid))
  {
    ErrorsReportEachFailingCheck(c, f, env);
  }

  /** Kuwait and Israel judge the account number by the IBAN library alone, whatever regex is defined. */
  lemma IbanDecidesAccountNumber(c: AccountClass, accountNumber: Option<string>, ibanValid: Option<string> -> bool)
    requires UsesIban(c)
    ensures AccountNumberAccepted(c, accountNumber, ibanValid) <==> ibanValid(accountNumber)
  {
  }

  /** A nil code is checked as the empty string. */
  lemma NilCheckedAsEmpty(c: AccountClass, ibanValid: Option<string> -> bool)
    ensures BankCodeAccepted(c, None) == BankCodeAccepted(c, Some(""))
    ensures BranchCodeAccepted(c, None) == BranchCodeAccepted(c, Some(""))
    ensures !UsesIban(c) ==> AccountNumberAccepted(c, None, ibanValid) == AccountNumberAccepted(c, Some(""), ibanValid)
  {
  }

  /** The before_validation hook: on create a nil account type becomes CHECKING; nothing else ever changes. */
  lemma DefaultAccountType(c: AccountClass, f: Fields, env: Env, onCreate: bool)
    ensures var g := BeforeValidation(c, f, env, onCreate);
      && g.(accountType := f.accountType) == f
      && (g.accountType == f.accountType
          <==> !(onCreate && f.accountType.None? && AccountTypesOf(c, env).Some?))
      && (onCreate && f.accountType.None? && AccountTypesOf(c, env).Some?
          ==> g.accountType == Some(AccountTypesOf(c, env).value.checking))
  {
  }

  // ---------------------------------------------------------------------
  // Properties of the derived values
  // ---------------------------------------------------------------------

  /** The text before the first '-', and the text after it ("" when there is none). */
  function SplitAtHyphen(s: string): (string, string)
  {
    if s == [] then ("", "")
    else if s[0] == '-' then ("", s[1..])
    else var (a, b) := SplitAtHyphen(s[1..]); ([s[0]] + a, b)
  }

  lemma {:induction false} SplitAtHyphenJoin(a: string, b: string)
    requires '-' !in a
    ensures SplitAtHyphen(a + "-" + b) == (a, b)
  {
    if a != [] {
      assert (a + "-" + b)[0] == a[0];
      assert (a + "-" + b)[1..] == a[1..] + "-" + b;
      SplitAtHyphenJoin(a[1..], b);
      assert [a[0]] + a[1..] == a;
    } else {
      assert a + "-" + b == ['-'] + b;
    }
  }

  /** What routing_number answers, case by case. */
  lemma RoutingNumberCases(c: AccountClass, bankCode: Option<string>, branchCode: Option<string>)
    ensures c.id == Israel ==> RoutingNumber(c, bankCode, branchCode) == None
    ensures c.id == Armenia ==> RoutingNumber(c, bankCode, branchCode) == Some(ToS(bankCode))
    ensures c.id == Japan && Present(branchCode)
      ==> RoutingNumber(c, bankCode, branchCode) == Some(ToS(bankCode) + branchCode.value)
    ensures c.id != Israel && c.id != Armenia && c.id != Japan && Present(branchCode)
      ==> RoutingNumber(c, bankCode, branchCode) == Some(ToS(bankCode) + "-" + branchCode.value)
    ensures c.id != Israel && Blank(branchCode) ==> RoutingNumber(c, bankCode, branchCode) == Some(ToS(bankCode))
  {
  }

  /**
   * A hyphen-joined routing number gives back its bank and branch codes when
   * the bank code holds no hyphen of its own.
   */
  lemma HyphenatedRoutingSplitsBack(c: AccountClass, bankCode: Option<string>, branchCode: Option<string>)
    requires c.id != Israel && c.id != Armenia && c.id != Japan
    requires Present(branchCode) && '-' !in ToS(bankCode)
    ensures RoutingNumber(c, bankCode, branchCode).Some?
    ensures SplitAtHyphen(RoutingNumber(c, bankCode, branchCode).value) == (ToS(bankCode), ToS(branchCode))
  {
    SplitAtHyphenJoin(ToS(bankCode), ToS(branchCode));
  }

  /**
   * The masked number ends in the last four characters and shows nothing
   * else but six asterisks and, for Nigeria and Israel, the country code.
   */
  lemma VisualMasksAllButLastFour(c: AccountClass, lastFour: Option<string>)
    ensures var v := Visual(c, lastFour);
      && v[|v| - |ToS(lastFour)|..] == ToS(lastFour)
      && v[..|v| - |ToS(lastFour)|] == VisualPrefix(c) + "******"
    ensures !PrefixedVisual(c) ==> Visual(c, lastFour) == "******" + ToS(lastFour)
  {
    var v := Visual(c, lastFour);
    assert v == (VisualPrefix(c) + Mask) + ToS(lastFour);
  }

  /** to_hash has exactly three keys; `routing_number` is there even when it is nil. */
  lemma ToHashShape(c: AccountClass, f: Fields)
    ensures ToHash(c, f).Keys == {"routing_number", "account_number", "bank_account_type"}
    ensures ToHash(c, f)["routing_number"] == RoutingNumber(c, f.bankCode, f.branchCode)
    ensures ToHash(c, f)["account_number"] == Some(Visual(c, f.accountNumberLastFour))
    ensures ToHash(c, f)["bank_account_type"] == Some(c.typeCode)
  {
  }

  // ---------------------------------------------------------------------
  // The record, whose validators append to its errors
  // ---------------------------------------------------------------------

  class BankAccount {
    const accountClass: AccountClass
    var bankCode: Option<string>
    var branchCode: Option<string>
    var accountNumber: Option<string>
    var accountNumberLastFour: Option<string>
    var accountType: Option<string>
    var errors: seq<Error>

    function Snapshot(): Fields
      reads this
    {
      Fields(bankCode, branchCode, accountNumber, accountNumberLastFour, accountType)
    }

    constructor (accountClass: AccountClass, f: Fields)
      ensures this.accountClass == accountClass && Snapshot() == f && errors == []
    {
      this.accountClass := accountClass;
      bankCode, branchCode, accountNumber := f.bankCode, f.branchCode, f.accountNumber;
      accountNumberLastFour, accountType := f.accountNumberLastFour, f.accountType;
      errors := [];
    }

    /** validate_bank_code. */
    method ValidateBankCode()
      modifies this`errors
      ensures errors == old(errors) + BankCodeErrors(accountClass, bankCode)
    {
      if accountClass.bankCodeFormat.None? {
        return;
      }
      if Accepts(accountClass.bankCodeFormat.value, ToS(bankCode)) {
        return;
      }
      errors := errors + [BankCodeInvalid];
    }

    /** validate_branch_code. */
    method ValidateBranchCode()
      modifies this`errors
      ensures errors == old(errors) + BranchCodeErrors(accountClass, branchCode)
    {
      if accountClass.branchCodeFormat.None? {
        return;
      }
      if Accepts(accountClass.branchCodeFormat.value, ToS(branchCode)) {
        return;
      }
      errors := errors + [BranchCodeInvalid];
    }

    /** validate_account_number. */
    method ValidateAccountNumber(ibanValid: Option<string> -> bool)
      modifies this`errors
      ensures errors == old(errors) + AccountNumberErrors(accountClass, accountNumber, ibanValid)
    {
      if accountClass.id == Kuwait || accountClass.id == Israel {
        if ibanValid(accountNumber) {
          return;
        }
        errors := errors + [AccountNumberInvalid];
        return;
      }
      if accountClass.accountNumberFormat.None? {
        return;
      }
      if Accepts(accountClass.accountNumberFormat.value, ToS(accountNumber)) {
        return;
      }
      errors := errors + [AccountNumberInvalid];
    }

    /** The Dominican Republic's `validates :bank_code, presence: true` and `validates :account_number, presence: true`. */
    method ValidatePresence()
      modifies this`errors
      ensures errors == old(errors) + PresenceErrors(Snapshot())
    {
      if Blank(bankCode) {
        errors := errors + [BankCodeBlank];
      }
      if Blank(accountNumber) {
        errors := errors + [AccountNumberBlank];
      }
    }

    /** `validates :account_type, inclusion: { in: AccountType.all }`. */
    method ValidateAccountTypeInclusion(types: AccountTypes)
      modifies this`errors
      ensures errors == old(errors) + InclusionErrors(accountType, types)
    {
      if !(accountType.Some? && accountType.value in types.all) {
        errors := errors + [AccountTypeNotIncluded];
      }
    }

    /** set_default_account_type, run before validation on create when the type is nil. */
    method SetDefaultAccountType(types: AccountTypes)
      modifies this`accountType
      ensures accountType == Some(types.checking)
    {
      accountType := Some(types.checking);
    }

    /** The concern's validators, in the order it registers them. */
    method RunConcernValidators(env: Env)
      modifies this`errors
      ensures errors == old(errors) + ConcernErrors(accountClass, Snapshot(), env)
    {
      ghost var start := errors;
      ValidateBankCode();
      ValidateBranchCode();
      assert errors == start + BankCodeErrors(accountClass, bankCode) + BranchCodeErrors(accountClass, branchCode);
      if AccountCheckRuns(accountClass, env.production) {
        ValidateAccountNumber(env.ibanValid);
      }
    }

    /** The validations the class declares after including the concern. */
    method RunClassValidators(env: Env)
      modifies this`errors
      ensures errors == old(errors) + ClassErrors(accountClass, Snapshot(), env)
    {
      ghost var start := errors;
      if accountClass.id == DominicanRepublic {
        ValidatePresence();
      }
      assert errors == start + (if accountClass.id == DominicanRepublic then PresenceErrors(Snapshot()) else []);
      var types := AccountTypesOf(accountClass, env);
      if types.Some? {
        ValidateAccountTypeInclusion(types.value);
      }
    }

    /**
     * `valid?`: clear the errors, run the before_validation hook, then every
     * registered validator in registration order. Validators only append to
     * `errors`; no other attribute changes.
     */
    method Validate(env: Env, onCreate: bool) returns (ok: bool)
      modifies this`errors, this`accountType
      ensures Snapshot() == BeforeValidation(accountClass, old(Snapshot()), env, onCreate)
      ensures errors == ValidationErrors(accountClass, Snapshot(), env)
      ensures ok <==> errors == []
    {
      var types := AccountTypesOf(accountClass, env);
      if types.Some? && onCreate && accountType.None? {
        SetDefaultAccountType(types.value);
      }
      ghost var f := Snapshot();
      assert f == BeforeValidation(accountClass, old(Snapshot()), env, onCreate);
      errors := [];
      RunConcernValidators(env);
      RunClassValidators(env);
      ok := errors == [];
    }
  }
}
