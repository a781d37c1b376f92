/**
 * What each per-country bank-account class accepts and answers, stated
 * without the regex matcher: for every class, its type code and currency,
 * and for each of its three codes the exact set of values that passes,
 * together with the behaviour the class overrides or adds.
 */
module CountryRules {
  import opened Wrappers
  import opened Patterns
  import opened CountryTable
  import opened RubyStrings
  import opened BankAccountValidations

  /** The constants of albania_bank_account.rb and the checks it leaves open. */
  lemma AlbaniaRules(branchCode: Option<string>, accountNumber: Option<string>, ibanValid: Option<string> -> bool)
    ensures AlbaniaBankAccount.typeCode == "AL" && AlbaniaBankAccount.currency == "ALL"
    ensures AlbaniaBankAccount.country == Fixed("ALB", "AL")
    ensures BranchCodeAccepted(AlbaniaBankAccount, branchCode)
    ensures AccountNumberAccepted(AlbaniaBankAccount, accountNumber, ibanValid)
  {
  }

  /** The bank code albania_bank_account.rb accepts: some line must match `^([0-9a-zA-Z]){8,11}$`. */
  lemma AlbaniaBankCode(s: string)
    ensures BankCodeAccepted(AlbaniaBankAccount, Some(s))
      <==> exists l :: l in Lines(s) && 8 <= |l| <= 11 && AllIn(Alnum, l)
  {
    assert BankCodeAccepted(AlbaniaBankAccount, Some(s)) == Accepts(Format(AnyLine, [Run(Alnum, 8, 11)]), s);
    RunFormat(AnyLine, Alnum, 8, 11, s);
  }

  /** The constants of algeria_bank_account.rb and the checks it leaves open. */
  lemma AlgeriaRules(branchCode: Option<string>)
    ensures AlgeriaBankAccount.typeCode == "DZ" && AlgeriaBankAccount.currency == "DZD"
    ensures AlgeriaBankAccount.country == Fixed("DZA", "DZ")
    ensures BranchCodeAccepted(AlgeriaBankAccount, branchCode)
  {
  }

  /** The bank code algeria_bank_account.rb accepts: some line must match `^([0-9a-zA-Z]){8,11}$`. */
  lemma AlgeriaBankCode(s: string)
    ensures BankCodeAccepted(AlgeriaBankAccount, Some(s))
      <==> exists l :: l in Lines(s) && 8 <= |l| <= 11 && AllIn(Alnum, l)
  {
    assert BankCodeAccepted(AlgeriaBankAccount, Some(s)) == Accepts(Format(AnyLine, [Run(Alnum, 8, 11)]), s);
    RunFormat(AnyLine, Alnum, 8, 11, s);
  }

  /** The account number algeria_bank_account.rb accepts: some line must match `^\d{20}$`. */
  lemma AlgeriaAccountNumber(s: string, ibanValid: Option<string> -> bool)
    ensures AccountNumberAccepted(AlgeriaBankAccount, Some(s), ibanValid)
      <==> exists l :: l in Lines(s) && |l| == 20 && AllIn(Digit, l)
  {
    assert AccountNumberAccepted(AlgeriaBankAccount, Some(s), ibanValid) == Accepts(Format(AnyLine, [Run(Digit, 20, 20)]), s);
    RunFormat(AnyLine, Digit, 20, 20, s);
  }

  /** The constants of angola_bank_account.rb and the checks it leaves open. */
  lemma AngolaRules(branchCode: Option<string>, accountNumber: Option<string>, ibanValid: Option<string> -> bool)
    ensures AngolaBankAccount.typeCode == "AO" && AngolaBankAccount.currency == "AOA"
    ensures AngolaBankAccount.country == Fixed("AGO", "AO")
    ensures BranchCodeAccepted(AngolaBankAccount, branchCode)
    ensures AccountNumberAccepted(AngolaBankAccount, accountNumber, ibanValid)
  {
  }

  /** The bank code angola_bank_account.rb accepts: some line must match `^([0-9a-zA-Z]){8,11}$`. */
  lemma AngolaBankCode(s: string)
    ensures BankCodeAccepted(AngolaBankAccount, Some(s))
      <==> exists l :: l in Lines(s) && 8 <= |l| <= 11 && AllIn(Alnum, l)
  {
    assert BankCodeAccepted(AngolaBankAccount, Some(s)) == Accepts(Format(AnyLine, [Run(Alnum, 8, 11)]), s);
    RunFormat(AnyLine, Alnum, 8, 11, s);
  }

  /** The constants of antigua_and_barbuda_bank_account.rb and the checks it leaves open. */
  lemma AntiguaAndBarbudaRules(branchCode: Option<string>)
    ensures AntiguaAndBarbudaBankAccount.typeCode == "AG" && AntiguaAndBarbudaBankAccount.currency == "XCD"
    ensures AntiguaAndBarbudaBankAccount.country == Fixed("ATG", "AG")
    ensures BranchCodeAccepted(AntiguaAndBarbudaBankAccount, branchCode)
  {
  }

  /** The bank code antigua_and_barbuda_bank_account.rb accepts: some line must match `^[a-zA-Z0-9]{8,11}$`. */
  lemma AntiguaAndBarbudaBankCode(s: string)
    ensures BankCodeAccepted(AntiguaAndBarbudaBankAccount, Some(s))
      <==> exists l :: l in Lines(s) && 8 <= |l| <= 11 && AllIn(Alnum, l)
  {
    assert BankCodeAccepted(AntiguaAndBarbudaBankAccount, Some(s)) == Accepts(Format(AnyLine, [Run(Alnum, 8, 11)]), s);
    RunFormat(AnyLine, Alnum, 8, 11, s);
  }

  /** The account number antigua_and_barbuda_bank_account.rb accepts: some line must match `^[a-zA-Z0-9]{1,32}$`. */
  lemma AntiguaAndBarbudaAccountNumber(s: string, ibanValid: Option<string> -> bool)
    ensures AccountNumberAccepted(AntiguaAndBarbudaBankAccount, Some(s), ibanValid)
      <==> exists l :: l in Lines(s) && 1 <= |l| <= 32 && AllIn(Alnum, l)
  {
    assert AccountNumberAccepted(AntiguaAndBarbudaBankAccount, Some(s), ibanValid) == Accepts(Format(AnyLine, [Run(Alnum, 1, 32)]), s);
    RunFormat(AnyLine, Alnum, 1, 32, s);
  }

  /** The constants of armenia_bank_account.rb and the checks it leaves open. */
  lemma ArmeniaRules(branchCode: Option<string>, bankCode: Option<string>)
    ensures ArmeniaBankAccount.typeCode == "AM" && ArmeniaBankAccount.currency == "AMD"
    ensures ArmeniaBankAccount.country == Fixed("ARM", "AM")
    ensures BranchCodeAccepted(ArmeniaBankAccount, branchCode)
    ensures RoutingNumber(ArmeniaBankAccount, bankCode, branchCode) == Some(ToS(bankCode))
  {
  }

  /** The bank code armenia_bank_account.rb accepts: some line must match `^[0-9A-Za-z]{8,11}$`. */
  lemma ArmeniaBankCode(s: string)
    ensures BankCodeAccepted(ArmeniaBankAccount, Some(s))
      <==> exists l :: l in Lines(s) && 8 <= |l| <= 11 && AllIn(Alnum, l)
  {
    assert BankCodeAccepted(ArmeniaBankAccount, Some(s)) == Accepts(Format(AnyLine, [Run(Alnum, 8, 11)]), s);
    RunFormat(AnyLine, Alnum, 8, 11, s);
  }

  /** The account number armenia_bank_account.rb accepts: some line must match `^\d{11,16}$`. */
  lemma ArmeniaAccountNumber(s: string, ibanValid: Option<string> -> bool)
    ensures AccountNumberAccepted(ArmeniaBankAccount, Some(s), ibanValid)
      <==> exists l :: l in Lines(s) && 11 <= |l| <= 16 && AllIn(Digit, l)
  {
    assert AccountNumberAccepted(ArmeniaBankAccount, Some(s), ibanValid) == Accepts(Format(AnyLine, [Run(Digit, 11, 16)]), s);
    RunFormat(AnyLine, Digit, 11, 16, s);
  }

  /** The constants of azerbaijan_bank_account.rb and the checks it leaves open. */
  lemma AzerbaijanRules(accountNumber: Option<string>, ibanValid: Option<string> -> bool)
    ensures AzerbaijanBankAccount.typeCode == "AZ" && AzerbaijanBankAccount.currency == "AZN"
    ensures AzerbaijanBankAccount.country == Fixed("AZE", "AZ")
    ensures AccountNumberAccepted(AzerbaijanBankAccount, accountNumber, ibanValid)
  {
  }

  /** The bank code azerbaijan_bank_account.rb accepts: some line must match `^\d{6}$`. */
  lemma AzerbaijanBankCode(s: string)
    ensures BankCodeAccepted(AzerbaijanBankAccount, Some(s))
      <==> exists l :: l in Lines(s) && |l| == 6 && AllIn(Digit, l)
  {
    assert BankCodeAccepted(AzerbaijanBankAccount, Some(s)) == Accepts(Format(AnyLine, [Run(Digit, 6, 6)]), s);
    RunFormat(AnyLine, Digit, 6, 6, s);
  }

  /** The branch code azerbaijan_bank_account.rb accepts: some line must match `^\d{6}$`. */
  lemma AzerbaijanBranchCode(s: string)
    ensures BranchCodeAccepted(AzerbaijanBankAccount, Some(s))
      <==> exists l :: l in Lines(s) && |l| == 6 && AllIn(Digit, l)
  {
    assert BranchCodeAccepted(AzerbaijanBankAccount, Some(s)) == Accepts(Format(AnyLine, [Run(Digit, 6, 6)]), s);
    RunFormat(AnyLine, Digit, 6, 6, s);
  }

  /** The constants of bahamas_bank_account.rb and the checks it leaves open. */
  lemma BahamasRules(branchCode: Option<string>)
    ensures BahamasBankAccount.typeCode == "BS" && BahamasBankAccount.currency == "BSD"
    ensures BahamasBankAccount.country == Fixed("BHS", "BS")
    ensures BranchCodeAccepted(BahamasBankAccount, branchCode)
  {
  }

  /** The bank code bahamas_bank_account.rb accepts: some line must match `^[a-z0-9A-Z]{8,11}$`. */
  lemma BahamasBankCode(s: string)
    ensures BankCodeAccepted(BahamasBankAccount, Some(s))
      <==> exists l :: l in Lines(s) && 8 <= |l| <= 11 && AllIn(Alnum, l)
  {
    assert BankCodeAccepted(BahamasBankAccount, Some(s)) == Accepts(Format(AnyLine, [Run(Alnum, 8, 11)]), s);
    RunFormat(AnyLine, Alnum, 8, 11, s);
  }

  /** The account number bahamas_bank_account.rb accepts: some line must match `^\d{1,10}$`. */
  lemma BahamasAccountNumber(s: string, ibanValid: Option<string> -> bool)
    ensures AccountNumberAccepted(BahamasBankAccount, Some(s), ibanValid)
      <==> exists l :: l in Lines(s) && 1 <= |l| <= 10 && AllIn(Digit, l)
  {
    assert AccountNumberAccepted(BahamasBankAccount, Some(s), ibanValid) == Accepts(Format(AnyLine, [Run(Digit, 1, 10)]), s);
    RunFormat(AnyLine, Digit, 1, 10, s);
  }

  /** The constants of bahrain_bank_account.rb and the checks it leaves open. */
  lemma BahrainRules(branchCode: Option<string>, accountNumber: Option<string>, ibanValid: Option<string> -> bool)
    ensures BahrainBankAccount.typeCode == "BH" && BahrainBankAccount.currency == "BHD"
    ensures BahrainBankAccount.country == Fixed("BHR", "BH")
    ensures BranchCodeAccepted(BahrainBankAccount, branchCode)
    ensures AccountNumberAccepted(BahrainBankAccount, accountNumber, ibanValid)
  {
  }

  /** The bank code bahrain_bank_account.rb accepts: some line must match `^([0-9a-zA-Z]){8,11}$`. */
  lemma BahrainBankCode(s: string)
    ensures BankCodeAccepted(BahrainBankAccount, Some(s))
      <==> exists l :: l in Lines(s) && 8 <= |l| <= 11 && AllIn(Alnum, l)
  {
    assert BankCodeAccepted(BahrainBankAccount, Some(s)) == Accepts(Format(AnyLine, [Run(Alnum, 8, 11)]), s);
    RunFormat(AnyLine, Alnum, 8, 11, s);
  }

  /** The constants of bangladesh_bank_account.rb and the checks it leaves open. */
  lemma BangladeshRules(branchCode: Option<string>)
    ensures BangladeshBankAccount.typeCode == "BD" && BangladeshBankAccount.currency == "BDT"
    ensures BangladeshBankAccount.country == Fixed("BGD", "BD")
    ensures BranchCodeAccepted(BangladeshBankAccount, branchCode)
  {
  }

  /** The bank code bangladesh_bank_account.rb accepts: some line must match `^([0-9a-zA-Z]){9}$`. */
  lemma BangladeshBankCode(s: string)
    ensures BankCodeAccepted(BangladeshBankAccount, Some(s))
      <==> exists l :: l in Lines(s) && |l| == 9 && AllIn(Alnum, l)
  {
    assert BankCodeAccepted(BangladeshBankAccount, Some(s)) == Accepts(Format(AnyLine, [Run(Alnum, 9, 9)]), s);
    RunFormat(AnyLine, Alnum, 9, 9, s);
  }

  /** The account number bangladesh_bank_account.rb accepts: some line must match `^([0-9a-zA-Z]){13,17}$`. */
  lemma BangladeshAccountNumber(s: string, ibanValid: Option<string> -> bool)
    ensures AccountNumberAccepted(BangladeshBankAccount, Some(s), ibanValid)
      <==> exists l :: l in Lines(s) && 13 <= |l| <= 17 && AllIn(Alnum, l)
  {
    assert AccountNumberAccepted(BangladeshBankAccount, Some(s), ibanValid) == Accepts(Format(AnyLine, [Run(Alnum, 13, 17)]), s);
    RunFormat(AnyLine, Alnum, 13, 17, s);
  }

  /** The constants of bhutan_bank_account.rb and the checks it leaves open. */
  lemma BhutanRules(branchCode: Option<string>)
    ensures BhutanBankAccount.typeCode == "BT" && BhutanBankAccount.currency == "BTN"
    ensures BhutanBankAccount.country == Fixed("BTN", "BT")
    ensures BranchCodeAccepted(BhutanBankAccount, branchCode)
  {
  }

  /** The bank code bhutan_bank_account.rb accepts: some line must match `^([0-9a-zA-Z]){8,11}$`. */
  lemma BhutanBankCode(s: string)
    ensures BankCodeAccepted(BhutanBankAccount, Some(s))
      <==> exists l :: l in Lines(s) && 8 <= |l| <= 11 && AllIn(Alnum, l)
  {
    assert BankCodeAccepted(BhutanBankAccount, Some(s)) == Accepts(Format(AnyLine, [Run(Alnum, 8, 11)]), s);
    RunFormat(AnyLine, Alnum, 8, 11, s);
  }

  /** The account number bhutan_bank_account.rb accepts: some line must match `^([0-9a-zA-Z]){1,17}$`. */
  lemma BhutanAccountNumber(s: string, ibanValid: Option<string> -> bool)
    ensures AccountNumberAccepted(BhutanBankAccount, Some(s), ibanValid)
      <==> exists l :: l in Lines(s) && 1 <= |l| <= 17 && AllIn(Alnum, l)
  {
    assert AccountNumberAccepted(BhutanBankAccount, Some(s), ibanValid) == Accepts(Format(AnyLine, [Run(Alnum, 1, 17)]), s);
    RunFormat(AnyLine, Alnum, 1, 17, s);
  }

  /** The constants of bolivia_bank_account.rb and the checks it leaves open. */
  lemma BoliviaRules(branchCode: Option<string>)
    ensures BoliviaBankAccount.typeCode == "BO" && BoliviaBankAccount.currency == "BOB"
    ensures BoliviaBankAccount.country == Fixed("BOL", "BO")
    ensures BranchCodeAccepted(BoliviaBankAccount, branchCode)
  {
  }

  /** The bank code bolivia_bank_account.rb accepts: some line must match `^\d{1,3}$`. */
  lemma BoliviaBankCode(s: string)
    ensures BankCodeAccepted(BoliviaBankAccount, Some(s))
      <==> exists l :: l in Lines(s) && 1 <= |l| <= 3 && AllIn(Digit, l)
  {
    assert BankCodeAccepted(BoliviaBankAccount, Some(s)) == Accepts(Format(AnyLine, [Run(Digit, 1, 3)]), s);
    RunFormat(AnyLine, Digit, 1, 3, s);
  }

  /** The account number bolivia_bank_account.rb accepts: some line must match `^\d{10,15}$`. */
  lemma BoliviaAccountNumber(s: string, ibanValid: Option<string> -> bool)
    ensures AccountNumberAccepted(BoliviaBankAccount, Some(s), ibanValid)
      <==> exists l :: l in Lines(s) && 10 <= |l| <= 15 && AllIn(Digit, l)
  {
    assert AccountNumberAccepted(BoliviaBankAccount, Some(s), ibanValid) == Accepts(Format(AnyLine, [Run(Digit, 10, 15)]), s);
    RunFormat(AnyLine, Digit, 10, 15, s);
  }

  /** The constants of brunei_bank_account.rb and the checks it leaves open. */
  lemma BruneiRules(branchCode: Option<string>)
    ensures BruneiBankAccount.typeCode == "BN" && BruneiBankAccount.currency == "BND"
    ensures BruneiBankAccount.country == Fixed("BRN", "BN")
    ensures BranchCodeAccepted(BruneiBankAccount, branchCode)
  {
  }

  /** The bank code brunei_bank_account.rb accepts: some line must match `^[0-9a-zA-Z]{8,11}$`. */
  lemma BruneiBankCode(s: string)
    ensures BankCodeAccepted(BruneiBankAccount, Some(s))
      <==> exists l :: l in Lines(s) && 8 <= |l| <= 11 && AllIn(Alnum, l)
  {
    assert BankCodeAccepted(BruneiBankAccount, Some(s)) == Accepts(Format(AnyLine, [Run(Alnum, 8, 11)]), s);
    RunFormat(AnyLine, Alnum, 8, 11, s);
  }

  /** The account number brunei_bank_account.rb accepts: some line must match `^[0-9]{1,13}$`. */
  lemma BruneiAccountNumber(s: string, ibanValid: Option<string> -> bool)
    ensures AccountNumberAccepted(BruneiBankAccount, Some(s), ibanValid)
      <==> exists l :: l in Lines(s) && 1 <= |l| <= 13 && AllIn(Digit, l)
  {
    assert AccountNumberAccepted(BruneiBankAccount, Some(s), ibanValid) == Accepts(Format(AnyLine, [Run(Digit, 1, 13)]), s);
    RunFormat(AnyLine, Digit, 1, 13, s);
  }

  /** The constants of chile_bank_account.rb and the checks it leaves open. */
  lemma ChileRules(branchCode: Option<string>)
    ensures ChileBankAccount.typeCode == "CL" && ChileBankAccount.currency == "CLP"
    ensures ChileBankAccount.country == Fixed("CHL", "CL")
    ensures BranchCodeAccepted(ChileBankAccount, branchCode)
  {
  }

  /** The bank code chile_bank_account.rb accepts: the whole value must match `\A[0-9]{3}\z`. */
  lemma ChileBankCode(s: string)
    ensures BankCodeAccepted(ChileBankAccount, Some(s)) <==> |s| == 3 && AllIn(Digit, s)
  {
    assert BankCodeAccepted(ChileBankAccount, Some(s)) == Accepts(Format(Whole, [Run(Digit, 3, 3)]), s);
    RunFormat(Whole, Digit, 3, 3, s);
  }

  /** The account number chile_bank_account.rb accepts: the whole value must match `\A[0-9]{5,25}\z`. */
  lemma ChileAccountNumber(s: string, ibanValid: Option<string> -> bool)
    ensures AccountNumberAccepted(ChileBankAccount, Some(s), ibanValid)
      <==> 5 <= |s| <= 25 && AllIn(Digit, s)
  {
    assert AccountNumberAccepted(ChileBankAccount, Some(s), ibanValid) == Accepts(Format(Whole, [Run(Digit, 5, 25)]), s);
    RunFormat(Whole, Digit, 5, 25, s);
  }

  /** The account type of chile_bank_account.rb: CHECKING by default on create, and one of AccountType.all. */
  lemma ChileAccountType(bankCode: Option<string>, branchCode: Option<string>, accountNumber: Option<string>, accountType: Option<string>, env: Env)
    ensures var f := Fields(bankCode, branchCode, accountNumber, None, accountType);
      && BeforeValidation(ChileBankAccount, f, env, true).accountType
         == (if accountType.None? then Some(env.chileTypes.checking) else accountType)
      && BeforeValidation(ChileBankAccount, f, env, false) == f
      && (AccountTypeNotIncluded in ValidationErrors(ChileBankAccount, f, env) <==> !AccountTypeIncluded(accountType, env.chileTypes))
  {
    ErrorsReportEachFailingCheck(ChileBankAccount, Fields(bankCode, branchCode, accountNumber, None, accountType), env);
  }

  /** The constants of colombia_bank_account.rb and the checks it leaves open. */
  lemma ColombiaRules(branchCode: Option<string>)
    ensures ColombiaBankAccount.typeCode == "CO" && ColombiaBankAccount.currency == "COP"
    ensures ColombiaBankAccount.country == Fixed("COL", "CO")
    ensures BranchCodeAccepted(ColombiaBankAccount, branchCode)
  {
  }

  /** The bank code colombia_bank_account.rb accepts: the whole value must match `\A[0-9]{3}\z`. */
  lemma ColombiaBankCode(s: string)
    ensures BankCodeAccepted(ColombiaBankAccount, Some(s)) <==> |s| == 3 && AllIn(Digit, s)
  {
    assert BankCodeAccepted(ColombiaBankAccount, Some(s)) == Accepts(Format(Whole, [Run(Digit, 3, 3)]), s);
    RunFormat(Whole, Digit, 3, 3, s);
  }

  /** The account number colombia_bank_account.rb accepts: the whole value must match `\A[0-9]{9,16}\z`. */
  lemma ColombiaAccountNumber(s: string, ibanValid: Option<string> -> bool)
    ensures AccountNumberAccepted(ColombiaBankAccount, Some(s), ibanValid)
      <==> 9 <= |s| <= 16 && AllIn(Digit, s)
  {
    assert AccountNumberAccepted(ColombiaBankAccount, Some(s), ibanValid) == Accepts(Format(Whole, [Run(Digit, 9, 16)]), s);
    RunFormat(Whole, Digit, 9, 16, s);
  }

  /** The account type of colombia_bank_account.rb: CHECKING by default on create, and one of AccountType.all. */
  lemma ColombiaAccountType(bankCode: Option<string>, branchCode: Option<string>, accountNumber: Option<string>, accountType: Option<string>, env: Env)
    ensures var f := Fields(bankCode, branchCode, accountNumber, None, accountType);
      && BeforeValidation(ColombiaBankAccount, f, env, true).accountType
         == (if accountType.None? then Some(env.colombiaTypes.checking) else accountType)
      && BeforeValidation(ColombiaBankAccount, f, env, false) == f
      && (AccountTypeNotIncluded in ValidationErrors(ColombiaBankAccount, f, env) <==> !AccountTypeIncluded(accountType, env.colombiaTypes))
  {
    ErrorsReportEachFailingCheck(ColombiaBankAccount, Fields(bankCode, branchCode, accountNumber, None, accountType), env);
  }

  /** The constants of dominican_republic_bank_account.rb and the checks it leaves open. */
  lemma DominicanRepublicRules(branchCode: Option<string>)
    ensures DominicanRepublicBankAccount.typeCode == "DO" && DominicanRepublicBankAccount.currency == "DOP"
    ensures DominicanRepublicBankAccount.country == Fixed("DOM", "DO")
    ensures BranchCodeAccepted(DominicanRepublicBankAccount, branchCode)
  {
  }

  /** The bank code dominican_republic_bank_account.rb accepts: some line must match `^\d{1,3}$`. */
  lemma DominicanRepublicBankCode(s: string)
    ensures BankCodeAccepted(DominicanRepublicBankAccount, Some(s))
      <==> exists l :: l in Lines(s) && 1 <= |l| <= 3 && AllIn(Digit, l)
  {
    assert BankCodeAccepted(DominicanRepublicBankAccount, Some(s)) == Accepts(Format(AnyLine, [Run(Digit, 1, 3)]), s);
    RunFormat(AnyLine, Digit, 1, 3, s);
  }

  /** The account number dominican_republic_bank_account.rb accepts: some line must match `^\d{1,28}$`. */
  lemma DominicanRepublicAccountNumber(s: string, ibanValid: Option<string> -> bool)
    ensures AccountNumberAccepted(DominicanRepublicBankAccount, Some(s), ibanValid)
      <==> exists l :: l in Lines(s) && 1 <= |l| <= 28 && AllIn(Digit, l)
  {
    assert AccountNumberAccepted(DominicanRepublicBankAccount, Some(s), ibanValid) == Accepts(Format(AnyLine, [Run(Digit, 1, 28)]), s);
    RunFormat(AnyLine, Digit, 1, 28, s);
  }

  /** The presence checks of dominican_republic_bank_account.rb: a blank bank code or account number is reported. */
  lemma DominicanRepublicPresence(bankCode: Option<string>, branchCode: Option<string>, accountNumber: Option<string>, accountType: Option<string>, env: Env)
    ensures var f := Fields(bankCode, branchCode, accountNumber, None, accountType);
      && (BankCodeBlank in ValidationErrors(DominicanRepublicBankAccount, f, env) <==> Blank(bankCode))
      && (AccountNumberBlank in ValidationErrors(DominicanRepublicBankAccount, f, env) <==> Blank(accountNumber))
  {
    ErrorsReportEachFailingCheck(DominicanRepublicBankAccount, Fields(bankCode, branchCode, accountNumber, None, accountType), env);
  }

  /** The constants of ecuador_bank_account.rb and the checks it leaves open. */
  lemma EcuadorRules(branchCode: Option<string>)
    ensures EcuadorBankAccount.typeCode == "EC" && EcuadorBankAccount.currency == "USD"
    ensures EcuadorBankAccount.country == Fixed("ECU", "EC")
    ensures BranchCodeAccepted(EcuadorBankAccount, branchCode)
  {
  }

  /** The bank code ecuador_bank_account.rb accepts: the last line must match `^[a-zA-Z0-9]{8,11}\z`. */
  lemma EcuadorBankCode(s: string)
    ensures BankCodeAccepted(EcuadorBankAccount, Some(s))
      <==> var l := LastLine(s); 8 <= |l| <= 11 && AllIn(Alnum, l)
  {
    assert BankCodeAccepted(EcuadorBankAccount, Some(s)) == Accepts(Format(LastLineOnly, [Run(Alnum, 8, 11)]), s);
    RunFormat(LastLineOnly, Alnum, 8, 11, s);
  }

  /** The account number ecuador_bank_account.rb accepts: the whole value must match `\A[0-9]{5,18}\z`. */
  lemma EcuadorAccountNumber(s: string, ibanValid: Option<string> -> bool)
    ensures AccountNumberAccepted(EcuadorBankAccount, Some(s), ibanValid)
      <==> 5 <= |s| <= 18 && AllIn(Digit, s)
  {
    assert AccountNumberAccepted(EcuadorBankAccount, Some(s), ibanValid) == Accepts(Format(Whole, [Run(Digit, 5, 18)]), s);
    RunFormat(Whole, Digit, 5, 18, s);
  }

  /** The constants of egypt_bank_account.rb and the checks it leaves open. */
  lemma EgyptRules(branchCode: Option<string>, accountNumber: Option<string>, ibanValid: Option<string> -> bool)
    ensures EgyptBankAccount.typeCode == "EG" && EgyptBankAccount.currency == "EGP"
    ensures EgyptBankAccount.country == Fixed("EGY", "EG")
    ensures BranchCodeAccepted(EgyptBankAccount, branchCode)
    ensures AccountNumberAccepted(EgyptBankAccount, accountNumber, ibanValid)
  {
  }

  /** The bank code egypt_bank_account.rb accepts: some line must match `^([a-zA-Z]){4}([a-zA-Z]){2}([0-9a-zA-Z]){2}([0-9a-zA-Z]{3})?$`. */
  lemma EgyptBankCode(s: string)
    ensures BankCodeAccepted(EgyptBankAccount, Some(s)) <==> exists l :: l in Lines(s) && Bic(l)
    ensures '\n' !in s && (|s| == 9 || |s| == 10) ==> !BankCodeAccepted(EgyptBankAccount, Some(s))
  {
    assert BankCodeAccepted(EgyptBankAccount, Some(s)) == Accepts(Format(AnyLine, [Run(Letter, 4, 4), Run(Letter, 2, 2), Run(Alnum, 2, 2), Opt(Alnum, 3)]), s);
    AnyLineBic(s);
    if '\n' !in s { SingleLine(s); }
  }

  /** The constants of ethiopia_bank_account.rb and the checks it leaves open. */
  lemma EthiopiaRules(branchCode: Option<string>)
    ensures EthiopiaBankAccount.typeCode == "ET" && EthiopiaBankAccount.currency == "ETB"
    ensures EthiopiaBankAccount.country == Fixed("ETH", "ET")
    ensures BranchCodeAccepted(EthiopiaBankAccount, branchCode)
  {
  }

  /** The bank code ethiopia_bank_account.rb accepts: some line must match `^[0-9a-zA-Z]{8,11}$`. */
  lemma EthiopiaBankCode(s: string)
    ensures BankCodeAccepted(EthiopiaBankAccount, Some(s))
      <==> exists l :: l in Lines(s) && 8 <= |l| <= 11 && AllIn(Alnum, l)
  {
    assert BankCodeAccepted(EthiopiaBankAccount, Some(s)) == Accepts(Format(AnyLine, [Run(Alnum, 8, 11)]), s);
    RunFormat(AnyLine, Alnum, 8, 11, s);
  }

  /** The account number ethiopia_bank_account.rb accepts: some line must match `^[0-9a-zA-Z]{13,16}$`. */
  lemma EthiopiaAccountNumber(s: string, ibanValid: Option<string> -> bool)
    ensures AccountNumberAccepted(EthiopiaBankAccount, Some(s), ibanValid)
      <==> exists l :: l in Lines(s) && 13 <= |l| <= 16 && AllIn(Alnum, l)
  {
    assert AccountNumberAccepted(EthiopiaBankAccount, Some(s), ibanValid) == Accepts(Format(AnyLine, [Run(Alnum, 13, 16)]), s);
    RunFormat(AnyLine, Alnum, 13, 16, s);
  }

  /** The constants of european_bank_account.rb and the checks it leaves open. */
  lemma EuropeanRules(bankCode: Option<string>, branchCode: Option<string>, accountNumber: Option<string>, ibanValid: Option<string> -> bool, decrypted: string, lookup: string -> Option<string>)
    ensures EuropeanBankAccount.typeCode == "EU" && EuropeanBankAccount.currency == "EUR"
    ensures BankCodeAccepted(EuropeanBankAccount, bankCode)
    ensures BranchCodeAccepted(EuropeanBankAccount, branchCode)
    ensures AccountNumberAccepted(EuropeanBankAccount, accountNumber, ibanValid)
    ensures |decrypted| >= 2 ==> CountryCode(EuropeanBankAccount, Some(decrypted), lookup) == lookup(decrypted[..2])
    ensures |decrypted| < 2 ==> CountryCode(EuropeanBankAccount, Some(decrypted), lookup) == lookup(decrypted)
    ensures CountryCode(EuropeanBankAccount, None, lookup) == None
  {
    if |decrypted| == 2 { assert decrypted[..2] == decrypted; }
  }

  /** The constants of gabon_bank_account.rb and the checks it leaves open. */
  lemma GabonRules(branchCode: Option<string>)
    ensures GabonBankAccount.typeCode == "GA" && GabonBankAccount.currency == "XAF"
    ensures GabonBankAccount.country == Fixed("GAB", "GA")
    ensures BranchCodeAccepted(GabonBankAccount, branchCode)
  {
  }

  /** The bank code gabon_bank_account.rb accepts: some line must match `^[0-9A-Za-z]{8,11}$`. */
  lemma GabonBankCode(s: string)
    ensures BankCodeAccepted(GabonBankAccount, Some(s))
      <==> exists l :: l in Lines(s) && 8 <= |l| <= 11 && AllIn(Alnum, l)
  {
    assert BankCodeAccepted(GabonBankAccount, Some(s)) == Accepts(Format(AnyLine, [Run(Alnum, 8, 11)]), s);
    RunFormat(AnyLine, Alnum, 8, 11, s);
  }

  /** The account number gabon_bank_account.rb accepts: some line must match `^[0-9]{23}$`. */
  lemma GabonAccountNumber(s: string, ibanValid: Option<string> -> bool)
    ensures AccountNumberAccepted(GabonBankAccount, Some(s), ibanValid)
      <==> exists l :: l in Lines(s) && |l| == 23 && AllIn(Digit, l)
  {
    assert AccountNumberAccepted(GabonBankAccount, Some(s), ibanValid) == Accepts(Format(AnyLine, [Run(Digit, 23, 23)]), s);
    RunFormat(AnyLine, Digit, 23, 23, s);
  }

  /** The constants of ghana_bank_account.rb and the checks it leaves open. */
  lemma GhanaRules(branchCode: Option<string>)
    ensures GhanaBankAccount.typeCode == "GH" && GhanaBankAccount.currency == "GHS"
    ensures GhanaBankAccount.country == Fixed("GHA", "GH")
    ensures BranchCodeAccepted(GhanaBankAccount, branchCode)
  {
  }

  /** The bank code ghana_bank_account.rb accepts: the whole value must match `\A[0-9]{6}\z`. */
  lemma GhanaBankCode(s: string)
    ensures BankCodeAccepted(GhanaBankAccount, Some(s)) <==> |s| == 6 && AllIn(Digit, s)
  {
    assert BankCodeAccepted(GhanaBankAccount, Some(s)) == Accepts(Format(Whole, [Run(Digit, 6, 6)]), s);
    RunFormat(Whole, Digit, 6, 6, s);
  }

  /** The account number ghana_bank_account.rb accepts: the whole value must match `\A[0-9]{8,20}\z`. */
  lemma GhanaAccountNumber(s: string, ibanValid: Option<string> -> bool)
    ensures AccountNumberAccepted(GhanaBankAccount, Some(s), ibanValid)
      <==> 8 <= |s| <= 20 && AllIn(Digit, s)
  {
    assert AccountNumberAccepted(GhanaBankAccount, Some(s), ibanValid) == Accepts(Format(Whole, [Run(Digit, 8, 20)]), s);
    RunFormat(Whole, Digit, 8, 20, s);
  }

  /** The constants of guatemala_bank_account.rb and the checks it leaves open. */
  lemma GuatemalaRules(branchCode: Option<string>)
    ensures GuatemalaBankAccount.typeCode == "GT" && GuatemalaBankAccount.currency == "GTQ"
    ensures GuatemalaBankAccount.country == Fixed("GTM", "GT")
    ensures BranchCodeAccepted(GuatemalaBankAccount, branchCode)
  {
  }

  /** The bank code guatemala_bank_account.rb accepts: some line must match `^([a-zA-Z0-9]){8,11}$`. */
  lemma GuatemalaBankCode(s: string)
    ensures BankCodeAccepted(GuatemalaBankAccount, Some(s))
      <==> exists l :: l in Lines(s) && 8 <= |l| <= 11 && AllIn(Alnum, l)
  {
    assert BankCodeAccepted(GuatemalaBankAccount, Some(s)) == Accepts(Format(AnyLine, [Run(Alnum, 8, 11)]), s);
    RunFormat(AnyLine, Alnum, 8, 11, s);
  }

  /** The account number guatemala_bank_account.rb accepts: some line must match `^([a-zA-Z0-9]){1,34}$`. */
  lemma GuatemalaAccountNumber(s: string, ibanValid: Option<string> -> bool)
    ensures AccountNumberAccepted(GuatemalaBankAccount, Some(s), ibanValid)
      <==> exists l :: l in Lines(s) && 1 <= |l| <= 34 && AllIn(Alnum, l)
  {
    assert AccountNumberAccepted(GuatemalaBankAccount, Some(s), ibanValid) == Accepts(Format(AnyLine, [Run(Alnum, 1, 34)]), s);
    RunFormat(AnyLine, Alnum, 1, 34, s);
  }

  /** The constants of indonesia_bank_account.rb and the checks it leaves open. */
  lemma IndonesiaRules(branchCode: Option<string>)
    ensures IndonesiaBankAccount.typeCode == "ID" && IndonesiaBankAccount.currency == "IDR"
    ensures IndonesiaBankAccount.country == Fixed("IDN", "ID")
    ensures BranchCodeAccepted(IndonesiaBankAccount, branchCode)
  {
  }

  /** The bank code indonesia_bank_account.rb accepts: the whole value must match `\A[0-9a-zA-Z]{3,4}\z`. */
  lemma IndonesiaBankCode(s: string)
    ensures BankCodeAccepted(IndonesiaBankAccount, Some(s)) <==> 3 <= |s| <= 4 && AllIn(Alnum, s)
  {
    assert BankCodeAccepted(IndonesiaBankAccount, Some(s)) == Accepts(Format(Whole, [Run(Alnum, 3, 4)]), s);
    RunFormat(Whole, Alnum, 3, 4, s);
  }

  /** The account number indonesia_bank_account.rb accepts: the whole value must match `\A[0-9]{1,35}\z`. */
  lemma IndonesiaAccountNumber(s: string, ibanValid: Option<string> -> bool)
    ensures AccountNumberAccepted(IndonesiaBankAccount, Some(s), ibanValid)
      <==> 1 <= |s| <= 35 && AllIn(Digit, s)
  {
    assert AccountNumberAccepted(IndonesiaBankAccount, Some(s), ibanValid) == Accepts(Format(Whole, [Run(Digit, 1, 35)]), s);
    RunFormat(Whole, Digit, 1, 35, s);
  }

  /** The constants of israel_bank_account.rb and the checks it leaves open. */
  lemma IsraelRules(bankCode: Option<string>, branchCode: Option<string>, production: bool, lastFour: string)
    ensures IsraelBankAccount.typeCode == "IL" && IsraelBankAccount.currency == "ILS"
    ensures IsraelBankAccount.country == Fixed("ISR", "IL")
    ensures BankCodeAccepted(IsraelBankAccount, bankCode)
    ensures BranchCodeAccepted(IsraelBankAccount, branchCode)
    ensures AccountCheckRuns(IsraelBankAccount, production) <==> production
    ensures Visual(IsraelBankAccount, Some(lastFour)) == "IL******" + lastFour
  {
    assert Visual(IsraelBankAccount, Some(lastFour)) == "IL" + Mask + lastFour;
  }

  /** The constants of jamaica_bank_account.rb and the checks it leaves open. */
  lemma JamaicaRules()
    ensures JamaicaBankAccount.typeCode == "JM" && JamaicaBankAccount.currency == "JMD"
    ensures JamaicaBankAccount.country == Fixed("JAM", "JM")
  {
  }

  /** The bank code jamaica_bank_account.rb accepts: some line must match `^\d{3}$`. */
  lemma JamaicaBankCode(s: string)
    ensures BankCodeAccepted(JamaicaBankAccount, Some(s))
      <==> exists l :: l in Lines(s) && |l| == 3 && AllIn(Digit, l)
  {
    assert BankCodeAccepted(JamaicaBankAccount, Some(s)) == Accepts(Format(AnyLine, [Run(Digit, 3, 3)]), s);
    RunFormat(AnyLine, Digit, 3, 3, s);
  }

  /** The branch code jamaica_bank_account.rb accepts: some line must match `^\d{5}$`. */
  lemma JamaicaBranchCode(s: string)
    ensures BranchCodeAccepted(JamaicaBankAccount, Some(s))
      <==> exists l :: l in Lines(s) && |l| == 5 && AllIn(Digit, l)
  {
    assert BranchCodeAccepted(JamaicaBankAccount, Some(s)) == Accepts(Format(AnyLine, [Run(Digit, 5, 5)]), s);
    RunFormat(AnyLine, Digit, 5, 5, s);
  }

  /** The account number jamaica_bank_account.rb accepts: some line must match `^\d{1,18}$`. */
  lemma JamaicaAccountNumber(s: string, ibanValid: Option<string> -> bool)
    ensures AccountNumberAccepted(JamaicaBankAccount, Some(s), ibanValid)
      <==> exists l :: l in Lines(s) && 1 <= |l| <= 18 && AllIn(Digit, l)
  {
    assert AccountNumberAccepted(JamaicaBankAccount, Some(s), ibanValid) == Accepts(Format(AnyLine, [Run(Digit, 1, 18)]), s);
    RunFormat(AnyLine, Digit, 1, 18, s);
  }

  /** The constants of japan_bank_account.rb and the checks it leaves open. */
  lemma JapanRules()
    ensures JapanBankAccount.typeCode == "JP" && JapanBankAccount.currency == "JPY"
    ensures JapanBankAccount.country == Fixed("JPN", "JP")
  {
  }

  /** The bank code japan_bank_account.rb accepts: the whole value must match `\A[0-9]{4}\z`. */
  lemma JapanBankCode(s: string)
    ensures BankCodeAccepted(JapanBankAccount, Some(s)) <==> |s| == 4 && AllIn(Digit, s)
  {
    assert BankCodeAccepted(JapanBankAccount, Some(s)) == Accepts(Format(Whole, [Run(Digit, 4, 4)]), s);
    RunFormat(Whole, Digit, 4, 4, s);
  }

  /** The branch code japan_bank_account.rb accepts: the whole value must match `\A[0-9]{3}\z`. */
  lemma JapanBranchCode(s: string)
    ensures BranchCodeAccepted(JapanBankAccount, Some(s)) <==> |s| == 3 && AllIn(Digit, s)
  {
    assert BranchCodeAccepted(JapanBankAccount, Some(s)) == Accepts(Format(Whole, [Run(Digit, 3, 3)]), s);
    RunFormat(Whole, Digit, 3, 3, s);
  }

  /** The account number japan_bank_account.rb accepts: the whole value must match `\A[0-9]{4,8}\z`. */
  lemma JapanAccountNumber(s: string, ibanValid: Option<string> -> bool)
    ensures AccountNumberAccepted(JapanBankAccount, Some(s), ibanValid)
      <==> 4 <= |s| <= 8 && AllIn(Digit, s)
  {
    assert AccountNumberAccepted(JapanBankAccount, Some(s), ibanValid) == Accepts(Format(Whole, [Run(Digit, 4, 8)]), s);
    RunFormat(Whole, Digit, 4, 8, s);
  }

  /** Japan's routing number: bank and branch codes run together, seven digits for valid codes. */
  lemma JapanRoutingNumber(bankCode: string, branchCode: string)
    ensures Present(Some(branchCode)) ==> RoutingNumber(JapanBankAccount, Some(bankCode), Some(branchCode)) == Some(bankCode + branchCode)
    ensures BankCodeAccepted(JapanBankAccount, Some(bankCode)) && BranchCodeAccepted(JapanBankAccount, Some(branchCode)) ==>
      var r := bankCode + branchCode;
      && RoutingNumber(JapanBankAccount, Some(bankCode), Some(branchCode)) == Some(r)
      && |r| == 7 && AllIn(Digit, r) && r[..4] == bankCode && r[4..] == branchCode
  {
    JapanBankCode(bankCode);
    JapanBranchCode(branchCode);
    if BankCodeAccepted(JapanBankAccount, Some(bankCode)) && BranchCodeAccepted(JapanBankAccount, Some(branchCode)) {
      assert !IsSpace(branchCode[0]);
      var r := bankCode + branchCode;
      assert r[..4] == bankCode && r[4..] == branchCode;
      forall i | 0 <= i < 7 ensures Has(Digit, r[i]) {
        if i >= 4 { assert r[i] == branchCode[i - 4]; }
      }
    }
  }

  /** The constants of jordan_bank_account.rb and the checks it leaves open. */
  lemma JordanRules(branchCode: Option<string>, accountNumber: Option<string>, ibanValid: Option<string> -> bool)
    ensures JordanBankAccount.typeCode == "JO" && JordanBankAccount.currency == "JOD"
    ensures JordanBankAccount.country == Fixed("JOR", "JO")
    ensures BranchCodeAccepted(JordanBankAccount, branchCode)
    ensures AccountNumberAccepted(JordanBankAccount, accountNumber, ibanValid)
  {
  }

  /** The bank code jordan_bank_account.rb accepts: some line must match `^([0-9a-zA-Z]){8,11}$`. */
  lemma JordanBankCode(s: string)
    ensures BankCodeAccepted(JordanBankAccount, Some(s))
      <==> exists l :: l in Lines(s) && 8 <= |l| <= 11 && AllIn(Alnum, l)
  {
    assert BankCodeAccepted(JordanBankAccount, Some(s)) == Accepts(Format(AnyLine, [Run(Alnum, 8, 11)]), s);
    RunFormat(AnyLine, Alnum, 8, 11, s);
  }

  /** The constants of kazakhstan_bank_account.rb and the checks it leaves open. */
  lemma KazakhstanRules(branchCode: Option<string>, accountNumber: Option<string>, ibanValid: Option<string> -> bool)
    ensures KazakhstanBankAccount.typeCode == "KZ" && KazakhstanBankAccount.currency == "KZT"
    ensures KazakhstanBankAccount.country == Fixed("KAZ", "KZ")
    ensures BranchCodeAccepted(KazakhstanBankAccount, branchCode)
    ensures AccountNumberAccepted(KazakhstanBankAccount, accountNumber, ibanValid)
  {
  }

  /** The bank code kazakhstan_bank_account.rb accepts: the last line must match `^[a-zA-Z0-9]{8,11}\z`. */
  lemma KazakhstanBankCode(s: string)
    ensures BankCodeAccepted(KazakhstanBankAccount, Some(s))
      <==> var l := LastLine(s); 8 <= |l| <= 11 && AllIn(Alnum, l)
  {
    assert BankCodeAccepted(KazakhstanBankAccount, Some(s)) == Accepts(Format(LastLineOnly, [Run(Alnum, 8, 11)]), s);
    RunFormat(LastLineOnly, Alnum, 8, 11, s);
  }

  /** The constants of kenya_bank_account.rb and the checks it leaves open. */
  lemma KenyaRules(branchCode: Option<string>)
    ensures KenyaBankAccount.typeCode == "KE" && KenyaBankAccount.currency == "KES"
    ensures KenyaBankAccount.country == Fixed("KEN", "KE")
    ensures BranchCodeAccepted(KenyaBankAccount, branchCode)
  {
  }

  /** The bank code kenya_bank_account.rb accepts: some line must match `^([a-zA-Z]){4}([a-zA-Z]){2}([0-9a-zA-Z]){2}([0-9a-zA-Z]{3})?$`. */
  lemma KenyaBankCode(s: string)
    ensures BankCodeAccepted(KenyaBankAccount, Some(s)) <==> exists l :: l in Lines(s) && Bic(l)
    ensures '\n' !in s && (|s| == 9 || |s| == 10) ==> !BankCodeAccepted(KenyaBankAccount, Some(s))
  {
    assert BankCodeAccepted(KenyaBankAccount, Some(s)) == Accepts(Format(AnyLine, [Run(Letter, 4, 4), Run(Letter, 2, 2), Run(Alnum, 2, 2), Opt(Alnum, 3)]), s);
    AnyLineBic(s);
    if '\n' !in s { SingleLine(s); }
  }

  /** The account number kenya_bank_account.rb accepts: the whole value must match `\A[0-9a-zA-Z]{1,32}\z`. */
  lemma KenyaAccountNumber(s: string, ibanValid: Option<string> -> bool)
    ensures AccountNumberAccepted(KenyaBankAccount, Some(s), ibanValid)
      <==> 1 <= |s| <= 32 && AllIn(Alnum, s)
    ensures !AccountNumberAccepted(KenyaBankAccount, Some(""), ibanValid)
  {
    assert AccountNumberAccepted(KenyaBankAccount, Some(s), ibanValid) == Accepts(Format(Whole, [Run(Alnum, 1, 32)]), s);
    RunFormat(Whole, Alnum, 1, 32, s);
  }

  /** The constants of korea_bank_account.rb and the checks it leaves open. */
  lemma KoreaRules(branchCode: Option<string>)
    ensures KoreaBankAccount.typeCode == "KR" && KoreaBankAccount.currency == "KRW"
    ensures KoreaBankAccount.country == Fixed("KOR", "KR")
    ensures BranchCodeAccepted(KoreaBankAccount, branchCode)
  {
  }

  /** The bank code korea_bank_account.rb accepts: the whole value must match `\A[A-Za-z]{4}KR[A-Za-z0-9]{2,5}\z`. */
  lemma KoreaBankCode(s: string)
    ensures BankCodeAccepted(KoreaBankAccount, Some(s))
      <==> 8 <= |s| <= 11 && AllIn(Letter, s[..4]) && s[4..6] == "KR" && AllIn(Alnum, s[6..])
    ensures |s| >= 6 && s[4..6] == "kr" ==> !BankCodeAccepted(KoreaBankAccount, Some(s))
  {
    assert BankCodeAccepted(KoreaBankAccount, Some(s)) == Accepts(Format(Whole, [Run(Letter, 4, 4), Lit("KR"), Run(Alnum, 2, 5)]), s);
    InfixMeaning(Letter, 4, "KR", Alnum, 2, 5, s);
    assert "kr" != "KR" by { assert "kr"[0] != "KR"[0]; }
  }

  /** The account number korea_bank_account.rb accepts: the whole value must match `\A[0-9]{11,15}\z`. */
  lemma KoreaAccountNumber(s: string, ibanValid: Option<string> -> bool)
    ensures AccountNumberAccepted(KoreaBankAccount, Some(s), ibanValid)
      <==> 11 <= |s| <= 15 && AllIn(Digit, s)
  {
    assert AccountNumberAccepted(KoreaBankAccount, Some(s), ibanValid) == Accepts(Format(Whole, [Run(Digit, 11, 15)]), s);
    RunFormat(Whole, Digit, 11, 15, s);
  }

  /** The constants of kuwait_bank_account.rb and the checks it leaves open. */
  lemma KuwaitRules(branchCode: Option<string>, production: bool)
    ensures KuwaitBankAccount.typeCode == "KW" && KuwaitBankAccount.currency == "KWD"
    ensures KuwaitBankAccount.country == Fixed("KWT", "KW")
    ensures BranchCodeAccepted(KuwaitBankAccount, branchCode)
    ensures AccountCheckRuns(KuwaitBankAccount, production)
  {
  }

  /** The bank code kuwait_bank_account.rb accepts: some line must match `^[a-zA-Z0-9]{8,11}$`. */
  lemma KuwaitBankCode(s: string)
    ensures BankCodeAccepted(KuwaitBankAccount, Some(s))
      <==> exists l :: l in Lines(s) && 8 <= |l| <= 11 && AllIn(Alnum, l)
  {
    assert BankCodeAccepted(KuwaitBankAccount, Some(s)) == Accepts(Format(AnyLine, [Run(Alnum, 8, 11)]), s);
    RunFormat(AnyLine, Alnum, 8, 11, s);
  }

  /** The constants of laos_bank_account.rb and the checks it leaves open. */
  lemma LaosRules(branchCode: Option<string>)
    ensures LaosBankAccount.typeCode == "LA" && LaosBankAccount.currency == "LAK"
    ensures LaosBankAccount.country == Fixed("LAO", "LA")
    ensures BranchCodeAccepted(LaosBankAccount, branchCode)
  {
  }

  /** The bank code laos_bank_account.rb accepts: some line must match `^([0-9a-zA-Z]){8,11}$`. */
  lemma LaosBankCode(s: string)
    ensures BankCodeAccepted(LaosBankAccount, Some(s))
      <==> exists l :: l in Lines(s) && 8 <= |l| <= 11 && AllIn(Alnum, l)
  {
    assert BankCodeAccepted(LaosBankAccount, Some(s)) == Accepts(Format(AnyLine, [Run(Alnum, 8, 11)]), s);
    RunFormat(AnyLine, Alnum, 8, 11, s);
  }

  /** The account number laos_bank_account.rb accepts: some line must match `^([0-9a-zA-Z]){1,18}$`. */
  lemma LaosAccountNumber(s: string, ibanValid: Option<string> -> bool)
    ensures AccountNumberAccepted(LaosBankAccount, Some(s), ibanValid)
      <==> exists l :: l in Lines(s) && 1 <= |l| <= 18 && AllIn(Alnum, l)
  {
    assert AccountNumberAccepted(LaosBankAccount, Some(s), ibanValid) == Accepts(Format(AnyLine, [Run(Alnum, 1, 18)]), s);
    RunFormat(AnyLine, Alnum, 1, 18, s);
  }

  /** The constants of macao_bank_account.rb and the checks it leaves open. */
  lemma MacaoRules(branchCode: Option<string>)
    ensures MacaoBankAccount.typeCode == "MO" && MacaoBankAccount.currency == "MOP"
    ensures MacaoBankAccount.country == Fixed("MAC", "MO")
    ensures BranchCodeAccepted(MacaoBankAccount, branchCode)
  {
  }

  /** The bank code macao_bank_account.rb accepts: some line must match `^[A-Za-z0-9]{8,11}$`. */
  lemma MacaoBankCode(s: string)
    ensures BankCodeAccepted(MacaoBankAccount, Some(s))
      <==> exists l :: l in Lines(s) && 8 <= |l| <= 11 && AllIn(Alnum, l)
  {
    assert BankCodeAccepted(MacaoBankAccount, Some(s)) == Accepts(Format(AnyLine, [Run(Alnum, 8, 11)]), s);
    RunFormat(AnyLine, Alnum, 8, 11, s);
  }

  /** The account number macao_bank_account.rb accepts: some line must match `^\d{1,19}$`. */
  lemma MacaoAccountNumber(s: string, ibanValid: Option<string> -> bool)
    ensures AccountNumberAccepted(MacaoBankAccount, Some(s), ibanValid)
      <==> exists l :: l in Lines(s) && 1 <= |l| <= 19 && AllIn(Digit, l)
  {
    assert AccountNumberAccepted(MacaoBankAccount, Some(s), ibanValid) == Accepts(Format(AnyLine, [Run(Digit, 1, 19)]), s);
    RunFormat(AnyLine, Digit, 1, 19, s);
  }

  /** The constants of madagascar_bank_account.rb and the checks it leaves open. */
  lemma MadagascarRules(branchCode: Option<string>)
    ensures MadagascarBankAccount.typeCode == "MG" && MadagascarBankAccount.currency == "MGA"
    ensures MadagascarBankAccount.country == Fixed("MDG", "MG")
    ensures BranchCodeAccepted(MadagascarBankAccount, branchCode)
  {
  }

  /** The bank code madagascar_bank_account.rb accepts: some line must match `^([a-zA-Z]){4}([a-zA-Z]){2}([0-9a-zA-Z]){2}([0-9a-zA-Z]{3})?$`. */
  lemma MadagascarBankCode(s: string)
    ensures BankCodeAccepted(MadagascarBankAccount, Some(s))
      <==> exists l :: l in Lines(s) && Bic(l)
    ensures '\n' !in s && (|s| == 9 || |s| == 10) ==> !BankCodeAccepted(MadagascarBankAccount, Some(s))
  {
    assert BankCodeAccepted(MadagascarBankAccount, Some(s)) == Accepts(Format(AnyLine, [Run(Letter, 4, 4), Run(Letter, 2, 2), Run(Alnum, 2, 2), Opt(Alnum, 3)]), s);
    AnyLineBic(s);
    if '\n' !in s { SingleLine(s); }
  }

  /** The account number madagascar_bank_account.rb accepts: some line must match `^MG([0-9]){25}$`. */
  lemma MadagascarAccountNumber(s: string, ibanValid: Option<string> -> bool)
    ensures AccountNumberAccepted(MadagascarBankAccount, Some(s), ibanValid)
      <==> exists l :: l in Lines(s) && |l| == 27 && l[..2] == "MG" && AllIn(Digit, l[2..])
    ensures '\n' !in s && |s| >= 2 && s[..2] == "mg" ==> !AccountNumberAccepted(MadagascarBankAccount, Some(s), ibanValid)
  {
    assert AccountNumberAccepted(MadagascarBankAccount, Some(s), ibanValid) == Accepts(Format(AnyLine, [Lit("MG"), Run(Digit, 25, 25)]), s);
    forall l | l in Lines(s)
      ensures MatchAll([Lit("MG"), Run(Digit, 25, 25)], l) <==> |l| == 27 && l[..2] == "MG" && AllIn(Digit, l[2..])
    {
      PrefixThenRun("MG", Digit, 25, l);
    }
    if '\n' !in s { SingleLine(s); }
    assert "mg" != "MG" by { assert "mg"[0] != "MG"[0]; }
  }

  /** The constants of malaysia_bank_account.rb and the checks it leaves open. */
  lemma MalaysiaRules(branchCode: Option<string>, production: bool)
    ensures MalaysiaBankAccount.typeCode == "MY" && MalaysiaBankAccount.currency == "MYR"
    ensures MalaysiaBankAccount.country == Fixed("MYS", "MY")
    ensures BranchCodeAccepted(MalaysiaBankAccount, branchCode)
    ensures AccountCheckRuns(MalaysiaBankAccount, production) <==> production
  {
  }

  /** The bank code malaysia_bank_account.rb accepts: some line must match `^([0-9a-zA-Z]){8,11}$`. */
  lemma MalaysiaBankCode(s: string)
    ensures BankCodeAccepted(MalaysiaBankAccount, Some(s))
      <==> exists l :: l in Lines(s) && 8 <= |l| <= 11 && AllIn(Alnum, l)
  {
    assert BankCodeAccepted(MalaysiaBankAccount, Some(s)) == Accepts(Format(AnyLine, [Run(Alnum, 8, 11)]), s);
    RunFormat(AnyLine, Alnum, 8, 11, s);
  }

  /** The account number malaysia_bank_account.rb accepts: some line must match `^([0-9]){5,17}$`. */
  lemma MalaysiaAccountNumber(s: string, ibanValid: Option<string> -> bool)
    ensures AccountNumberAccepted(MalaysiaBankAccount, Some(s), ibanValid)
      <==> exists l :: l in Lines(s) && 5 <= |l| <= 17 && AllIn(Digit, l)
  {
    assert AccountNumberAccepted(MalaysiaBankAccount, Some(s), ibanValid) == Accepts(Format(AnyLine, [Run(Digit, 5, 17)]), s);
    RunFormat(AnyLine, Digit, 5, 17, s);
  }

  /** The constants of mauritius_bank_account.rb and the checks it leaves open. */
  lemma MauritiusRules(branchCode: Option<string>, accountNumber: Option<string>, ibanValid: Option<string> -> bool)
    ensures MauritiusBankAccount.typeCode == "MU" && MauritiusBankAccount.currency == "MUR"
    ensures MauritiusBankAccount.country == Fixed("MUS", "MU")
    ensures BranchCodeAccepted(MauritiusBankAccount, branchCode)
    ensures AccountNumberAccepted(MauritiusBankAccount, accountNumber, ibanValid)
  {
  }

  /** The bank code mauritius_bank_account.rb accepts: some line must match `^[a-zA-Z0-9]{8,11}?$`. */
  lemma MauritiusBankCode(s: string)
    ensures BankCodeAccepted(MauritiusBankAccount, Some(s))
      <==> exists l :: l in Lines(s) && 8 <= |l| <= 11 && AllIn(Alnum, l)
  {
    assert BankCodeAccepted(MauritiusBankAccount, Some(s)) == Accepts(Format(AnyLine, [Run(Alnum, 8, 11)]), s);
    RunFormat(AnyLine, Alnum, 8, 11, s);
  }

  /** The constants of mozambique_bank_account.rb and the checks it leaves open. */
  lemma MozambiqueRules(branchCode: Option<string>)
    ensures MozambiqueBankAccount.typeCode == "MZ" && MozambiqueBankAccount.currency == "MZN"
    ensures MozambiqueBankAccount.country == Fixed("MOZ", "MZ")
    ensures BranchCodeAccepted(MozambiqueBankAccount, branchCode)
  {
  }

  /** The bank code mozambique_bank_account.rb accepts: some line must match `^([0-9a-zA-Z]){8,11}$`. */
  lemma MozambiqueBankCode(s: string)
    ensures BankCodeAccepted(MozambiqueBankAccount, Some(s))
      <==> exists l :: l in Lines(s) && 8 <= |l| <= 11 && AllIn(Alnum, l)
  {
    assert BankCodeAccepted(MozambiqueBankAccount, Some(s)) == Accepts(Format(AnyLine, [Run(Alnum, 8, 11)]), s);
    RunFormat(AnyLine, Alnum, 8, 11, s);
  }

  /** The account number mozambique_bank_account.rb accepts: some line must match `^([0-9a-zA-Z]){21}$`. */
  lemma MozambiqueAccountNumber(s: string, ibanValid: Option<string> -> bool)
    ensures AccountNumberAccepted(MozambiqueBankAccount, Some(s), ibanValid)
      <==> exists l :: l in Lines(s) && |l| == 21 && AllIn(Alnum, l)
  {
    assert AccountNumberAccepted(MozambiqueBankAccount, Some(s), ibanValid) == Accepts(Format(AnyLine, [Run(Alnum, 21, 21)]), s);
    RunFormat(AnyLine, Alnum, 21, 21, s);
  }

  /** The constants of namibia_bank_account.rb and the checks it leaves open. */
  lemma NamibiaRules(branchCode: Option<string>)
    ensures NamibiaBankAccount.typeCode == "NA" && NamibiaBankAccount.currency == "NAD"
    ensures NamibiaBankAccount.country == Fixed("NAM", "NA")
    ensures BranchCodeAccepted(NamibiaBankAccount, branchCode)
  {
  }

  /** The bank code namibia_bank_account.rb accepts: some line must match `^[a-zA-Z0-9]{8,11}$`. */
  lemma NamibiaBankCode(s: string)
    ensures BankCodeAccepted(NamibiaBankAccount, Some(s))
      <==> exists l :: l in Lines(s) && 8 <= |l| <= 11 && AllIn(Alnum, l)
  {
    assert BankCodeAccepted(NamibiaBankAccount, Some(s)) == Accepts(Format(AnyLine, [Run(Alnum, 8, 11)]), s);
    RunFormat(AnyLine, Alnum, 8, 11, s);
  }

  /** The account number namibia_bank_account.rb accepts: some line must match `^[a-zA-Z0-9]{8,13}$`. */
  lemma NamibiaAccountNumber(s: string, ibanValid: Option<string> -> bool)
    ensures AccountNumberAccepted(NamibiaBankAccount, Some(s), ibanValid)
      <==> exists l :: l in Lines(s) && 8 <= |l| <= 13 && AllIn(Alnum, l)
  {
    assert AccountNumberAccepted(NamibiaBankAccount, Some(s), ibanValid) == Accepts(Format(AnyLine, [Run(Alnum, 8, 13)]), s);
    RunFormat(AnyLine, Alnum, 8, 13, s);
  }

  /** The constants of nigeria_bank_account.rb and the checks it leaves open. */
  lemma NigeriaRules(branchCode: Option<string>, production: bool, lastFour: string)
    ensures NigeriaBankAccount.typeCode == "NG" && NigeriaBankAccount.currency == "NGN"
    ensures NigeriaBankAccount.country == Fixed("NGA", "NG")
    ensures BranchCodeAccepted(NigeriaBankAccount, branchCode)
    ensures AccountCheckRuns(NigeriaBankAccount, production) <==> production
    ensures Visual(NigeriaBankAccount, Some(lastFour)) == "NG******" + lastFour
  {
    assert Visual(NigeriaBankAccount, Some(lastFour)) == "NG" + Mask + lastFour;
  }

  /** The bank code nigeria_bank_account.rb accepts: some line must match `^([0-9a-zA-Z]){8,11}$`. */
  lemma NigeriaBankCode(s: string)
    ensures BankCodeAccepted(NigeriaBankAccount, Some(s))
      <==> exists l :: l in Lines(s) && 8 <= |l| <= 11 && AllIn(Alnum, l)
  {
    assert BankCodeAccepted(NigeriaBankAccount, Some(s)) == Accepts(Format(AnyLine, [Run(Alnum, 8, 11)]), s);
    RunFormat(AnyLine, Alnum, 8, 11, s);
  }

  /** The account number nigeria_bank_account.rb accepts: some line must match `^\d{10}$`. */
  lemma NigeriaAccountNumber(s: string, ibanValid: Option<string> -> bool)
    ensures AccountNumberAccepted(NigeriaBankAccount, Some(s), ibanValid)
      <==> exists l :: l in Lines(s) && |l| == 10 && AllIn(Digit, l)
  {
    assert AccountNumberAccepted(NigeriaBankAccount, Some(s), ibanValid) == Accepts(Format(AnyLine, [Run(Digit, 10, 10)]), s);
    RunFormat(AnyLine, Digit, 10, 10, s);
  }

  /** The constants of north_macedonia_bank_account.rb and the checks it leaves open. */
  lemma NorthMacedoniaRules(branchCode: Option<string>)
    ensures NorthMacedoniaBankAccount.typeCode == "MK" && NorthMacedoniaBankAccount.currency == "MKD"
    ensures NorthMacedoniaBankAccount.country == Fixed("MKD", "MK")
    ensures BranchCodeAccepted(NorthMacedoniaBankAccount, branchCode)
  {
  }

  /** The bank code north_macedonia_bank_account.rb accepts: the whole value must match `\A[a-zA-Z0-9]{8,11}\z`. */
  lemma NorthMacedoniaBankCode(s: string)
    ensures BankCodeAccepted(NorthMacedoniaBankAccount, Some(s))
      <==> 8 <= |s| <= 11 && AllIn(Alnum, s)
  {
    assert BankCodeAccepted(NorthMacedoniaBankAccount, Some(s)) == Accepts(Format(Whole, [Run(Alnum, 8, 11)]), s);
    RunFormat(Whole, Alnum, 8, 11, s);
  }

  /** The account number north_macedonia_bank_account.rb accepts: the whole value must match `\A[a-zA-Z0-9]{19}\z`. */
  lemma NorthMacedoniaAccountNumber(s: string, ibanValid: Option<string> -> bool)
    ensures AccountNumberAccepted(NorthMacedoniaBankAccount, Some(s), ibanValid)
      <==> |s| == 19 && AllIn(Alnum, s)
  {
    assert AccountNumberAccepted(NorthMacedoniaBankAccount, Some(s), ibanValid) == Accepts(Format(Whole, [Run(Alnum, 19, 19)]), s);
    RunFormat(Whole, Alnum, 19, 19, s);
  }

  /** The constants of norway_bank_account.rb and the checks it leaves open. */
  lemma NorwayRules(bankCode: Option<string>, branchCode: Option<string>, accountNumber: Option<string>, ibanValid: Option<string> -> bool, lastFour: string)
    ensures NorwayBankAccount.typeCode == "NO" && NorwayBankAccount.currency == "NOK"
    ensures NorwayBankAccount.country == Fixed("NOR", "NO")
    ensures BankCodeAccepted(NorwayBankAccount, bankCode)
    ensures BranchCodeAccepted(NorwayBankAccount, branchCode)
    ensures AccountNumberAccepted(NorwayBankAccount, accountNumber, ibanValid)
    ensures Visual(NorwayBankAccount, Some(lastFour)) == "******" + lastFour
  {
  }

  /** The constants of oman_bank_account.rb and the checks it leaves open. */
  lemma OmanRules(branchCode: Option<string>)
    ensures OmanBankAccount.typeCode == "OM" && OmanBankAccount.currency == "OMR"
    ensures OmanBankAccount.country == Fixed("OMN", "OM")
    ensures BranchCodeAccepted(OmanBankAccount, branchCode)
  {
  }

  /** The bank code oman_bank_account.rb accepts: the last line must match `^[A-Z]{4}OM[A-Z0-9]{2,5}\z`. */
  lemma OmanBankCode(s: string)
    ensures BankCodeAccepted(OmanBankAccount, Some(s))
      <==> var l := LastLine(s); 8 <= |l| <= 11 && AllIn(Upper, l[..4]) && l[4..6] == "OM" && AllIn(UpperOrDigit, l[6..])
    ensures (exists i :: 0 <= i < |LastLine(s)| && IsLower(LastLine(s)[i])) ==> !BankCodeAccepted(OmanBankAccount, Some(s))
  {
    assert BankCodeAccepted(OmanBankAccount, Some(s)) == Accepts(Format(LastLineOnly, [Run(Upper, 4, 4), Lit("OM"), Run(UpperOrDigit, 2, 5)]), s);
    InfixMeaning(Upper, 4, "OM", UpperOrDigit, 2, 5, LastLine(s));
    var l := LastLine(s);
    if BankCodeAccepted(OmanBankAccount, Some(s)) {
      forall i | 0 <= i < |l| ensures !IsLower(l[i]) {
        if i < 4 { assert l[i] == l[..4][i]; }
        else if i < 6 { assert l[i] == "OM"[i - 4]; }
        else { assert l[i] == l[6..][i - 6]; }
      }
    }
  }

  /** The account number oman_bank_account.rb accepts: some line must match `^[0-9]{6,16}$`. */
  lemma OmanAccountNumber(s: string, ibanValid: Option<string> -> bool)
    ensures AccountNumberAccepted(OmanBankAccount, Some(s), ibanValid)
      <==> exists l :: l in Lines(s) && 6 <= |l| <= 16 && AllIn(Digit, l)
  {
    assert AccountNumberAccepted(OmanBankAccount, Some(s), ibanValid) == Accepts(Format(AnyLine, [Run(Digit, 6, 16)]), s);
    RunFormat(AnyLine, Digit, 6, 16, s);
  }

  /** The constants of pakistan_bank_account.rb and the checks it leaves open. */
  lemma PakistanRules(branchCode: Option<string>, accountNumber: Option<string>, ibanValid: Option<string> -> bool)
    ensures PakistanBankAccount.typeCode == "PK" && PakistanBankAccount.currency == "PKR"
    ensures PakistanBankAccount.country == Fixed("PAK", "PK")
    ensures BranchCodeAccepted(PakistanBankAccount, branchCode)
    ensures AccountNumberAccepted(PakistanBankAccount, accountNumber, ibanValid)
  {
  }

  /** The bank code pakistan_bank_account.rb accepts: some line must match `^([a-zA-Z]){4}([a-zA-Z]){2}([0-9a-zA-Z]){2}([0-9a-zA-Z]{3})?$`. */
  lemma PakistanBankCode(s: string)
    ensures BankCodeAccepted(PakistanBankAccount, Some(s))
      <==> exists l :: l in Lines(s) && Bic(l)
    ensures '\n' !in s && (|s| == 9 || |s| == 10) ==> !BankCodeAccepted(PakistanBankAccount, Some(s))
  {
    assert BankCodeAccepted(PakistanBankAccount, Some(s)) == Accepts(Format(AnyLine, [Run(Letter, 4, 4), Run(Letter, 2, 2), Run(Alnum, 2, 2), Opt(Alnum, 3)]), s);
    AnyLineBic(s);
    if '\n' !in s { SingleLine(s); }
  }

  /** The constants of panama_bank_account.rb and the checks it leaves open. */
  lemma PanamaRules(branchCode: Option<string>)
    ensures PanamaBankAccount.typeCode == "PA" && PanamaBankAccount.currency == "USD"
    ensures PanamaBankAccount.country == Fixed("PAN", "PA")
    ensures BranchCodeAccepted(PanamaBankAccount, branchCode)
  {
  }

  /** The bank code panama_bank_account.rb accepts: some line must match `^[A-Z]{4}PAPA[A-Z0-9]{3}$`. */
  lemma PanamaBankCode(s: string)
    ensures BankCodeAccepted(PanamaBankAccount, Some(s))
      <==> exists l :: l in Lines(s) && |l| == 11 && AllIn(Upper, l[..4]) && l[4..8] == "PAPA" && AllIn(UpperOrDigit, l[8..])
  {
    assert BankCodeAccepted(PanamaBankAccount, Some(s)) == Accepts(Format(AnyLine, [Run(Upper, 4, 4), Lit("PAPA"), Run(UpperOrDigit, 3, 3)]), s);
    forall l | l in Lines(s)
      ensures MatchAll([Run(Upper, 4, 4), Lit("PAPA"), Run(UpperOrDigit, 3, 3)], l) <==> |l| == 11 && AllIn(Upper, l[..4]) && l[4..8] == "PAPA" && AllIn(UpperOrDigit, l[8..])
    {
      InfixMeaning(Upper, 4, "PAPA", UpperOrDigit, 3, 3, l);
    }
  }

  /** The account number panama_bank_account.rb accepts: some line must match `^\d{1,18}$`. */
  lemma PanamaAccountNumber(s: string, ibanValid: Option<string> -> bool)
    ensures AccountNumberAccepted(PanamaBankAccount, Some(s), ibanValid)
      <==> exists l :: l in Lines(s) && 1 <= |l| <= 18 && AllIn(Digit, l)
  {
    assert AccountNumberAccepted(PanamaBankAccount, Some(s), ibanValid) == Accepts(Format(AnyLine, [Run(Digit, 1, 18)]), s);
    RunFormat(AnyLine, Digit, 1, 18, s);
  }

  /** The constants of paraguay_bank_account.rb and the checks it leaves open. */
  lemma ParaguayRules(branchCode: Option<string>)
    ensures ParaguayBankAccount.typeCode == "PY" && ParaguayBankAccount.currency == "PYG"
    ensures ParaguayBankAccount.country == Fixed("PRY", "PY")
    ensures BranchCodeAccepted(ParaguayBankAccount, branchCode)
  {
  }

  /** The bank code paraguay_bank_account.rb accepts: the whole value must match `\A[0-9]{1,2}\z`. */
  lemma ParaguayBankCode(s: string)
    ensures BankCodeAccepted(ParaguayBankAccount, Some(s)) <==> 1 <= |s| <= 2 && AllIn(Digit, s)
  {
    assert BankCodeAccepted(ParaguayBankAccount, Some(s)) == Accepts(Format(Whole, [Run(Digit, 1, 2)]), s);
    RunFormat(Whole, Digit, 1, 2, s);
  }

  /** The account number paraguay_bank_account.rb accepts: the whole value must match `\A[0-9]{1,16}\z`. */
  lemma ParaguayAccountNumber(s: string, ibanValid: Option<string> -> bool)
    ensures AccountNumberAccepted(ParaguayBankAccount, Some(s), ibanValid)
      <==> 1 <= |s| <= 16 && AllIn(Digit, s)
  {
    assert AccountNumberAccepted(ParaguayBankAccount, Some(s), ibanValid) == Accepts(Format(Whole, [Run(Digit, 1, 16)]), s);
    RunFormat(Whole, Digit, 1, 16, s);
  }

  /** The constants of philippines_bank_account.rb and the checks it leaves open. */
  lemma PhilippinesRules(branchCode: Option<string>)
    ensures PhilippinesBankAccount.typeCode == "PH" && PhilippinesBankAccount.currency == "PHP"
    ensures PhilippinesBankAccount.country == Fixed("PHL", "PH")
    ensures BranchCodeAccepted(PhilippinesBankAccount, branchCode)
  {
  }

  /** The bank code philippines_bank_account.rb accepts: the whole value must match `\A[A-Za-z0-9]{8,11}\z`. */
  lemma PhilippinesBankCode(s: string)
    ensures BankCodeAccepted(PhilippinesBankAccount, Some(s))
      <==> 8 <= |s| <= 11 && AllIn(Alnum, s)
  {
    assert BankCodeAccepted(PhilippinesBankAccount, Some(s)) == Accepts(Format(Whole, [Run(Alnum, 8, 11)]), s);
    RunFormat(Whole, Alnum, 8, 11, s);
  }

  /** The account number philippines_bank_account.rb accepts: the whole value must match `\A[0-9]{1,17}\z`. */
  lemma PhilippinesAccountNumber(s: string, ibanValid: Option<string> -> bool)
    ensures AccountNumberAccepted(PhilippinesBankAccount, Some(s), ibanValid)
      <==> 1 <= |s| <= 17 && AllIn(Digit, s)
  {
    assert AccountNumberAccepted(PhilippinesBankAccount, Some(s), ibanValid) == Accepts(Format(Whole, [Run(Digit, 1, 17)]), s);
    RunFormat(Whole, Digit, 1, 17, s);
  }

  /** The constants of qatar_bank_account.rb and the checks it leaves open. */
  lemma QatarRules(branchCode: Option<string>)
    ensures QatarBankAccount.typeCode == "QA" && QatarBankAccount.currency == "QAR"
    ensures QatarBankAccount.country == Fixed("QAT", "QA")
    ensures BranchCodeAccepted(QatarBankAccount, branchCode)
  {
  }

  /** The bank code qatar_bank_account.rb accepts: some line must match `^[a-zA-Z0-9]{11}$`. */
  lemma QatarBankCode(s: string)
    ensures BankCodeAccepted(QatarBankAccount, Some(s))
      <==> exists l :: l in Lines(s) && |l| == 11 && AllIn(Alnum, l)
  {
    assert BankCodeAccepted(QatarBankAccount, Some(s)) == Accepts(Format(AnyLine, [Run(Alnum, 11, 11)]), s);
    RunFormat(AnyLine, Alnum, 11, 11, s);
  }

  /** The account number qatar_bank_account.rb accepts: some line must match `^[a-zA-Z0-9]{29}$`. */
  lemma QatarAccountNumber(s: string, ibanValid: Option<string> -> bool)
    ensures AccountNumberAccepted(QatarBankAccount, Some(s), ibanValid)
      <==> exists l :: l in Lines(s) && |l| == 29 && AllIn(Alnum, l)
  {
    assert AccountNumberAccepted(QatarBankAccount, Some(s), ibanValid) == Accepts(Format(AnyLine, [Run(Alnum, 29, 29)]), s);
    RunFormat(AnyLine, Alnum, 29, 29, s);
  }

  /** The constants of saint_lucia_bank_account.rb and the checks it leaves open. */
  lemma SaintLuciaRules(branchCode: Option<string>)
    ensures SaintLuciaBankAccount.typeCode == "LC" && SaintLuciaBankAccount.currency == "XCD"
    ensures SaintLuciaBankAccount.country == Fixed("LCA", "LC")
    ensures BranchCodeAccepted(SaintLuciaBankAccount, branchCode)
  {
  }

  /** The bank code saint_lucia_bank_account.rb accepts: some line must match `^[a-zA-Z0-9]{8,11}$`. */
  lemma SaintLuciaBankCode(s: string)
    ensures BankCodeAccepted(SaintLuciaBankAccount, Some(s))
      <==> exists l :: l in Lines(s) && 8 <= |l| <= 11 && AllIn(Alnum, l)
  {
    assert BankCodeAccepted(SaintLuciaBankAccount, Some(s)) == Accepts(Format(AnyLine, [Run(Alnum, 8, 11)]), s);
    RunFormat(AnyLine, Alnum, 8, 11, s);
  }

  /** The account number saint_lucia_bank_account.rb accepts: some line must match `^[a-zA-Z0-9]{1,32}$`. */
  lemma SaintLuciaAccountNumber(s: string, ibanValid: Option<string> -> bool)
    ensures AccountNumberAccepted(SaintLuciaBankAccount, Some(s), ibanValid)
      <==> exists l :: l in Lines(s) && 1 <= |l| <= 32 && AllIn(Alnum, l)
  {
    assert AccountNumberAccepted(SaintLuciaBankAccount, Some(s), ibanValid) == Accepts(Format(AnyLine, [Run(Alnum, 1, 32)]), s);
    RunFormat(AnyLine, Alnum, 1, 32, s);
  }

  /** The constants of saudi_arabia_bank_account.rb and the checks it leaves open. */
  lemma SaudiArabiaRules(branchCode: Option<string>, accountNumber: Option<string>, ibanValid: Option<string> -> bool)
    ensures SaudiArabiaBankAccount.typeCode == "SA" && SaudiArabiaBankAccount.currency == "SAR"
    ensures SaudiArabiaBankAccount.country == Fixed("SAU", "SA")
    ensures BranchCodeAccepted(SaudiArabiaBankAccount, branchCode)
    ensures AccountNumberAccepted(SaudiArabiaBankAccount, accountNumber, ibanValid)
  {
  }

  /** The bank code saudi_arabia_bank_account.rb accepts: some line must match `^([a-zA-Z]){4}([a-zA-Z]){2}([0-9a-zA-Z]){2}([0-9a-zA-Z]{3})?$`. */
  lemma SaudiArabiaBankCode(s: string)
    ensures BankCodeAccepted(SaudiArabiaBankAccount, Some(s))
      <==> exists l :: l in Lines(s) && Bic(l)
    ensures '\n' !in s && (|s| == 9 || |s| == 10) ==> !BankCodeAccepted(SaudiArabiaBankAccount, Some(s))
  {
    assert BankCodeAccepted(SaudiArabiaBankAccount, Some(s)) == Accepts(Format(AnyLine, [Run(Letter, 4, 4), Run(Letter, 2, 2), Run(Alnum, 2, 2), Opt(Alnum, 3)]), s);
    AnyLineBic(s);
    if '\n' !in s { SingleLine(s); }
  }

  /** The constants of singaporean_bank_account.rb and the checks it leaves open. */
  lemma SingaporeanRules()
    ensures SingaporeanBankAccount.typeCode == "SG" && SingaporeanBankAccount.currency == "SGD"
    ensures SingaporeanBankAccount.country == Fixed("SGP", "SG")
  {
  }

  /** The bank code singaporean_bank_account.rb accepts: the whole value must match `\A[0-9]{4}\z`. */
  lemma SingaporeanBankCode(s: string)
    ensures BankCodeAccepted(SingaporeanBankAccount, Some(s)) <==> |s| == 4 && AllIn(Digit, s)
  {
    assert BankCodeAccepted(SingaporeanBankAccount, Some(s)) == Accepts(Format(Whole, [Run(Digit, 4, 4)]), s);
    RunFormat(Whole, Digit, 4, 4, s);
  }

  /** The branch code singaporean_bank_account.rb accepts: the whole value must match `\A[0-9]{3}\z`. */
  lemma SingaporeanBranchCode(s: string)
    ensures BranchCodeAccepted(SingaporeanBankAccount, Some(s)) <==> |s| == 3 && AllIn(Digit, s)
  {
    assert BranchCodeAccepted(SingaporeanBankAccount, Some(s)) == Accepts(Format(Whole, [Run(Digit, 3, 3)]), s);
    RunFormat(Whole, Digit, 3, 3, s);
  }

  /** The account number singaporean_bank_account.rb accepts: the whole value must match `\A[0-9]{6,19}\z`. */
  lemma SingaporeanAccountNumber(s: string, ibanValid: Option<string> -> bool)
    ensures AccountNumberAccepted(SingaporeanBankAccount, Some(s), ibanValid)
      <==> 6 <= |s| <= 19 && AllIn(Digit, s)
  {
    assert AccountNumberAccepted(SingaporeanBankAccount, Some(s), ibanValid) == Accepts(Format(Whole, [Run(Digit, 6, 19)]), s);
    RunFormat(Whole, Digit, 6, 19, s);
  }

  /** The constants of south_africa_bank_account.rb and the checks it leaves open. */
  lemma SouthAfricaRules(branchCode: Option<string>)
    ensures SouthAfricaBankAccount.typeCode == "ZA" && SouthAfricaBankAccount.currency == "ZAR"
    ensures SouthAfricaBankAccount.country == Fixed("ZAF", "ZA")
    ensures BranchCodeAccepted(SouthAfricaBankAccount, branchCode)
  {
  }

  /** The bank code south_africa_bank_account.rb accepts: some line must match `^([a-zA-Z]){4}([a-zA-Z]){2}([0-9a-zA-Z]){2}([0-9a-zA-Z]{3})?$`. */
  lemma SouthAfricaBankCode(s: string)
    ensures BankCodeAccepted(SouthAfricaBankAccount, Some(s))
      <==> exists l :: l in Lines(s) && Bic(l)
    ensures '\n' !in s && (|s| == 9 || |s| == 10) ==> !BankCodeAccepted(SouthAfricaBankAccount, Some(s))
  {
    assert BankCodeAccepted(SouthAfricaBankAccount, Some(s)) == Accepts(Format(AnyLine, [Run(Letter, 4, 4), Run(Letter, 2, 2), Run(Alnum, 2, 2), Opt(Alnum, 3)]), s);
    AnyLineBic(s);
    if '\n' !in s { SingleLine(s); }
  }

  /** The account number south_africa_bank_account.rb accepts: the whole value must match `\A[0-9a-zA-Z]{1,16}\z`. */
  lemma SouthAfricaAccountNumber(s: string, ibanValid: Option<string> -> bool)
    ensures AccountNumberAccepted(SouthAfricaBankAccount, Some(s), ibanValid)
      <==> 1 <= |s| <= 16 && AllIn(Alnum, s)
  {
    assert AccountNumberAccepted(SouthAfricaBankAccount, Some(s), ibanValid) == Accepts(Format(Whole, [Run(Alnum, 1, 16)]), s);
    RunFormat(Whole, Alnum, 1, 16, s);
  }

  /** The constants of sri_lanka_bank_account.rb and the checks it leaves open. */
  lemma SriLankaRules()
    ensures SriLankaBankAccount.typeCode == "LK" && SriLankaBankAccount.currency == "LKR"
    ensures SriLankaBankAccount.country == Fixed("LKA", "LK")
  {
  }

  /** The bank code sri_lanka_bank_account.rb accepts: some line must match `^[a-z0-9A-Z]{11}$`. */
  lemma SriLankaBankCode(s: string)
    ensures BankCodeAccepted(SriLankaBankAccount, Some(s))
      <==> exists l :: l in Lines(s) && |l| == 11 && AllIn(Alnum, l)
  {
    assert BankCodeAccepted(SriLankaBankAccount, Some(s)) == Accepts(Format(AnyLine, [Run(Alnum, 11, 11)]), s);
    RunFormat(AnyLine, Alnum, 11, 11, s);
  }

  /** The branch code sri_lanka_bank_account.rb accepts: some line must match `^\d{7}$`. */
  lemma SriLankaBranchCode(s: string)
    ensures BranchCodeAccepted(SriLankaBankAccount, Some(s))
      <==> exists l :: l in Lines(s) && |l| == 7 && AllIn(Digit, l)
  {
    assert BranchCodeAccepted(SriLankaBankAccount, Some(s)) == Accepts(Format(AnyLine, [Run(Digit, 7, 7)]), s);
    RunFormat(AnyLine, Digit, 7, 7, s);
  }

  /** The account number sri_lanka_bank_account.rb accepts: some line must match `^\d{10,18}$`. */
  lemma SriLankaAccountNumber(s: string, ibanValid: Option<string> -> bool)
    ensures AccountNumberAccepted(SriLankaBankAccount, Some(s), ibanValid)
      <==> exists l :: l in Lines(s) && 10 <= |l| <= 18 && AllIn(Digit, l)
  {
    assert AccountNumberAccepted(SriLankaBankAccount, Some(s), ibanValid) == Accepts(Format(AnyLine, [Run(Digit, 10, 18)]), s);
    RunFormat(AnyLine, Digit, 10, 18, s);
  }

  /** The constants of taiwan_bank_account.rb and the checks it leaves open. */
  lemma TaiwanRules(branchCode: Option<string>)
    ensures TaiwanBankAccount.typeCode == "TW" && TaiwanBankAccount.currency == "TWD"
    ensures TaiwanBankAccount.country == Fixed("TWN", "TW")
    ensures BranchCodeAccepted(TaiwanBankAccount, branchCode)
  {
  }

  /** The bank code taiwan_bank_account.rb accepts: some line must match `^([a-zA-Z]){4}([a-zA-Z]){2}([0-9a-zA-Z]){2}([0-9a-zA-Z]{3})?$`. */
  lemma TaiwanBankCode(s: string)
    ensures BankCodeAccepted(TaiwanBankAccount, Some(s)) <==> exists l :: l in Lines(s) && Bic(l)
    ensures '\n' !in s && (|s| == 9 || |s| == 10) ==> !BankCodeAccepted(TaiwanBankAccount, Some(s))
  {
    assert BankCodeAccepted(TaiwanBankAccount, Some(s)) == Accepts(Format(AnyLine, [Run(Letter, 4, 4), Run(Letter, 2, 2), Run(Alnum, 2, 2), Opt(Alnum, 3)]), s);
    AnyLineBic(s);
    if '\n' !in s { SingleLine(s); }
  }

  /** The account number taiwan_bank_account.rb accepts: the whole value must match `\A[0-9]{10,14}\z`. */
  lemma TaiwanAccountNumber(s: string, ibanValid: Option<string> -> bool)
    ensures AccountNumberAccepted(TaiwanBankAccount, Some(s), ibanValid)
      <==> 10 <= |s| <= 14 && AllIn(Digit, s)
  {
    assert AccountNumberAccepted(TaiwanBankAccount, Some(s), ibanValid) == Accepts(Format(Whole, [Run(Digit, 10, 14)]), s);
    RunFormat(Whole, Digit, 10, 14, s);
  }

  /** The constants of tanzania_bank_account.rb and the checks it leaves open. */
  lemma TanzaniaRules(branchCode: Option<string>)
    ensures TanzaniaBankAccount.typeCode == "TZ" && TanzaniaBankAccount.currency == "TZS"
    ensures TanzaniaBankAccount.country == Fixed("TZA", "TZ")
    ensures BranchCodeAccepted(TanzaniaBankAccount, branchCode)
  {
  }

  /** The bank code tanzania_bank_account.rb accepts: some line must match `^[a-zA-Z0-9]{8,11}$`. */
  lemma TanzaniaBankCode(s: string)
    ensures BankCodeAccepted(TanzaniaBankAccount, Some(s))
      <==> exists l :: l in Lines(s) && 8 <= |l| <= 11 && AllIn(Alnum, l)
  {
    assert BankCodeAccepted(TanzaniaBankAccount, Some(s)) == Accepts(Format(AnyLine, [Run(Alnum, 8, 11)]), s);
    RunFormat(AnyLine, Alnum, 8, 11, s);
  }

  /** The account number tanzania_bank_account.rb accepts: some line must match `^[a-zA-Z0-9]{10,14}$`. */
  lemma TanzaniaAccountNumber(s: string, ibanValid: Option<string> -> bool)
    ensures AccountNumberAccepted(TanzaniaBankAccount, Some(s), ibanValid)
      <==> exists l :: l in Lines(s) && 10 <= |l| <= 14 && AllIn(Alnum, l)
  {
    assert AccountNumberAccepted(TanzaniaBankAccount, Some(s), ibanValid) == Accepts(Format(AnyLine, [Run(Alnum, 10, 14)]), s);
    RunFormat(AnyLine, Alnum, 10, 14, s);
  }

  /** The constants of thailand_bank_account.rb and the checks it leaves open. */
  lemma ThailandRules(branchCode: Option<string>)
    ensures ThailandBankAccount.typeCode == "TH" && ThailandBankAccount.currency == "THB"
    ensures ThailandBankAccount.country == Fixed("THA", "TH")
    ensures BranchCodeAccepted(ThailandBankAccount, branchCode)
  {
  }

  /** The bank code thailand_bank_account.rb accepts: the whole value must match `\A[0-9]{3}\z`. */
  lemma ThailandBankCode(s: string)
    ensures BankCodeAccepted(ThailandBankAccount, Some(s)) <==> |s| == 3 && AllIn(Digit, s)
  {
    assert BankCodeAccepted(ThailandBankAccount, Some(s)) == Accepts(Format(Whole, [Run(Digit, 3, 3)]), s);
    RunFormat(Whole, Digit, 3, 3, s);
  }

  /** The account number thailand_bank_account.rb accepts: the whole value must match `\A[0-9]{6,15}\z`. */
  lemma ThailandAccountNumber(s: string, ibanValid: Option<string> -> bool)
    ensures AccountNumberAccepted(ThailandBankAccount, Some(s), ibanValid)
      <==> 6 <= |s| <= 15 && AllIn(Digit, s)
  {
    assert AccountNumberAccepted(ThailandBankAccount, Some(s), ibanValid) == Accepts(Format(Whole, [Run(Digit, 6, 15)]), s);
    RunFormat(Whole, Digit, 6, 15, s);
  }

  /** The constants of trinidad_and_tobago_bank_account.rb and the checks it leaves open. */
  lemma TrinidadAndTobagoRules()
    ensures TrinidadAndTobagoBankAccount.typeCode == "TT" && TrinidadAndTobagoBankAccount.currency == "TTD"
    ensures TrinidadAndTobagoBankAccount.country == Fixed("TTO", "TT")
  {
  }

  /** The bank code trinidad_and_tobago_bank_account.rb accepts: the whole value must match `\A[0-9]{3}\z`. */
  lemma TrinidadAndTobagoBankCode(s: string)
    ensures BankCodeAccepted(TrinidadAndTobagoBankAccount, Some(s))
      <==> |s| == 3 && AllIn(Digit, s)
  {
    assert BankCodeAccepted(TrinidadAndTobagoBankAccount, Some(s)) == Accepts(Format(Whole, [Run(Digit, 3, 3)]), s);
    RunFormat(Whole, Digit, 3, 3, s);
  }

  /** The branch code trinidad_and_tobago_bank_account.rb accepts: the whole value must match `\A[0-9]{5}\z`. */
  lemma TrinidadAndTobagoBranchCode(s: string)
    ensures BranchCodeAccepted(TrinidadAndTobagoBankAccount, Some(s))
      <==> |s| == 5 && AllIn(Digit, s)
  {
    assert BranchCodeAccepted(TrinidadAndTobagoBankAccount, Some(s)) == Accepts(Format(Whole, [Run(Digit, 5, 5)]), s);
    RunFormat(Whole, Digit, 5, 5, s);
  }

  /** The account number trinidad_and_tobago_bank_account.rb accepts: the whole value must match `\A[0-9]{1,17}\z`. */
  lemma TrinidadAndTobagoAccountNumber(s: string, ibanValid: Option<string> -> bool)
    ensures AccountNumberAccepted(TrinidadAndTobagoBankAccount, Some(s), ibanValid)
      <==> 1 <= |s| <= 17 && AllIn(Digit, s)
  {
    assert AccountNumberAccepted(TrinidadAndTobagoBankAccount, Some(s), ibanValid) == Accepts(Format(Whole, [Run(Digit, 1, 17)]), s);
    RunFormat(Whole, Digit, 1, 17, s);
  }

  /** The constants of tunisia_bank_account.rb and the checks it leaves open. */
  lemma TunisiaRules(bankCode: Option<string>, branchCode: Option<string>, accountNumber: Option<string>, ibanValid: Option<string> -> bool)
    ensures TunisiaBankAccount.typeCode == "TN" && TunisiaBankAccount.currency == "TND"
    ensures TunisiaBankAccount.country == Fixed("TUN", "TN")
    ensures BankCodeAccepted(TunisiaBankAccount, bankCode)
    ensures BranchCodeAccepted(TunisiaBankAccount, branchCode)
    ensures AccountNumberAccepted(TunisiaBankAccount, accountNumber, ibanValid)
  {
  }

  /** The constants of turkey_bank_account.rb and the checks it leaves open. */
  lemma TurkeyRules(branchCode: Option<string>, accountNumber: Option<string>, ibanValid: Option<string> -> bool)
    ensures TurkeyBankAccount.typeCode == "TR" && TurkeyBankAccount.currency == "TRY"
    ensures TurkeyBankAccount.country == Fixed("TUR", "TR")
    ensures BranchCodeAccepted(TurkeyBankAccount, branchCode)
    ensures AccountNumberAccepted(TurkeyBankAccount, accountNumber, ibanValid)
  {
  }

  /** The bank code turkey_bank_account.rb accepts: some line must match `^([a-zA-Z]){4}([a-zA-Z]){2}([0-9a-zA-Z]){2}([0-9a-zA-Z]{3})?$`. */
  lemma TurkeyBankCode(s: string)
    ensures BankCodeAccepted(TurkeyBankAccount, Some(s)) <==> exists l :: l in Lines(s) && Bic(l)
    ensures '\n' !in s && (|s| == 9 || |s| == 10) ==> !BankCodeAccepted(TurkeyBankAccount, Some(s))
  {
    assert BankCodeAccepted(TurkeyBankAccount, Some(s)) == Accepts(Format(AnyLine, [Run(Letter, 4, 4), Run(Letter, 2, 2), Run(Alnum, 2, 2), Opt(Alnum, 3)]), s);
    AnyLineBic(s);
    if '\n' !in s { SingleLine(s); }
  }

  /** The constants of uruguay_bank_account.rb and the checks it leaves open. */
  lemma UruguayRules(branchCode: Option<string>)
    ensures UruguayBankAccount.typeCode == "UY" && UruguayBankAccount.currency == "UYU"
    ensures UruguayBankAccount.country == Fixed("URY", "UY")
    ensures BranchCodeAccepted(UruguayBankAccount, branchCode)
  {
  }

  /** The bank code uruguay_bank_account.rb accepts: some line must match `^\d{3}$`. */
  lemma UruguayBankCode(s: string)
    ensures BankCodeAccepted(UruguayBankAccount, Some(s))
      <==> exists l :: l in Lines(s) && |l| == 3 && AllIn(Digit, l)
  {
    assert BankCodeAccepted(UruguayBankAccount, Some(s)) == Accepts(Format(AnyLine, [Run(Digit, 3, 3)]), s);
    RunFormat(AnyLine, Digit, 3, 3, s);
  }

  /** The account number uruguay_bank_account.rb accepts: some line must match `^\d{1,12}$`. */
  lemma UruguayAccountNumber(s: string, ibanValid: Option<string> -> bool)
    ensures AccountNumberAccepted(UruguayBankAccount, Some(s), ibanValid)
      <==> exists l :: l in Lines(s) && 1 <= |l| <= 12 && AllIn(Digit, l)
  {
    assert AccountNumberAccepted(UruguayBankAccount, Some(s), ibanValid) == Accepts(Format(AnyLine, [Run(Digit, 1, 12)]), s);
    RunFormat(AnyLine, Digit, 1, 12, s);
  }

  /** The constants of uzbekistan_bank_account.rb and the checks it leaves open. */
  lemma UzbekistanRules()
    ensures UzbekistanBankAccount.typeCode == "UZ" && UzbekistanBankAccount.currency == "UZS"
    ensures UzbekistanBankAccount.country == Fixed("UZB", "UZ")
  {
  }

  /** The bank code uzbekistan_bank_account.rb accepts: some line must match `^([a-zA-Z0-9]){8,11}$`. */
  lemma UzbekistanBankCode(s: string)
    ensures BankCodeAccepted(UzbekistanBankAccount, Some(s))
      <==> exists l :: l in Lines(s) && 8 <= |l| <= 11 && AllIn(Alnum, l)
  {
    assert BankCodeAccepted(UzbekistanBankAccount, Some(s)) == Accepts(Format(AnyLine, [Run(Alnum, 8, 11)]), s);
    RunFormat(AnyLine, Alnum, 8, 11, s);
  }

  /** The branch code uzbekistan_bank_account.rb accepts: some line must match `^([0-9]){5}$`. */
  lemma UzbekistanBranchCode(s: string)
    ensures BranchCodeAccepted(UzbekistanBankAccount, Some(s))
      <==> exists l :: l in Lines(s) && |l| == 5 && AllIn(Digit, l)
  {
    assert BranchCodeAccepted(UzbekistanBankAccount, Some(s)) == Accepts(Format(AnyLine, [Run(Digit, 5, 5)]), s);
    RunFormat(AnyLine, Digit, 5, 5, s);
  }

  /** The account number uzbekistan_bank_account.rb accepts: some line must match `^\d{5,20}$`. */
  lemma UzbekistanAccountNumber(s: string, ibanValid: Option<string> -> bool)
    ensures AccountNumberAccepted(UzbekistanBankAccount, Some(s), ibanValid)
      <==> exists l :: l in Lines(s) && 5 <= |l| <= 20 && AllIn(Digit, l)
  {
    assert AccountNumberAccepted(UzbekistanBankAccount, Some(s), ibanValid) == Accepts(Format(AnyLine, [Run(Digit, 5, 20)]), s);
    RunFormat(AnyLine, Digit, 5, 20, s);
  }

  /** The constants of vietnam_bank_account.rb and the checks it leaves open. */
  lemma VietnamRules(branchCode: Option<string>)
    ensures VietnamBankAccount.typeCode == "VN" && VietnamBankAccount.currency == "VND"
    ensures VietnamBankAccount.country == Fixed("VNM", "VN")
    ensures BranchCodeAccepted(VietnamBankAccount, branchCode)
  {
  }

  /** The bank code vietnam_bank_account.rb accepts: the whole value must match `\A[0-9]{8}\z`. */
  lemma VietnamBankCode(s: string)
    ensures BankCodeAccepted(VietnamBankAccount, Some(s)) <==> |s| == 8 && AllIn(Digit, s)
  {
    assert BankCodeAccepted(VietnamBankAccount, Some(s)) == Accepts(Format(Whole, [Run(Digit, 8, 8)]), s);
    RunFormat(Whole, Digit, 8, 8, s);
  }

  /** The account number vietnam_bank_account.rb accepts: the whole value must match `\A[0-9]{1,17}\z`. */
  lemma VietnamAccountNumber(s: string, ibanValid: Option<string> -> bool)
    ensures AccountNumberAccepted(VietnamBankAccount, Some(s), ibanValid)
      <==> 1 <= |s| <= 17 && AllIn(Digit, s)
  {
    assert AccountNumberAccepted(VietnamBankAccount, Some(s), ibanValid) == Accepts(Format(Whole, [Run(Digit, 1, 17)]), s);
    RunFormat(Whole, Digit, 1, 17, s);
  }
}
