# Bank-account validations and reading time, in Dafny

This project models two small parts of a creator-payments web application. It
proves what each part accepts and computes.

**Bank-account validations.** The Ruby concern `BankAccountValidations` is mixed
into 61 per-country bank-account classes. It registers three validators: the
bank code, the branch code and the account number. Each one checks a value
against a class constant when the class defines it. The concern also builds
the routing number, the masked account number and the summary hash. The
classes give the constants (type code, country, currency and up to three
format regexes). A few of them also override behaviour:

- Armenia builds its own routing number.
- Nigeria and Israel prefix the masked number with the country.
- Nigeria, Israel and Malaysia check the account number only in production.
- The Dominican Republic also requires the bank code and the account number.
- Chile and Colombia default the account type on create and check it against their account types.
- Kuwait and Israel check the account number as an IBAN.
- The European class takes its country from the first two characters of the decrypted account number.

The model has these modules:

- `Patterns` models the regexes as data. It keeps the subset of Ruby regexes
  these classes use: bounded runs of ASCII classes, literal infixes and one
  optional fixed group. Each pattern has one of three anchors: `\A...\z`,
  `^...$` or `^...\z`. A backtracking matcher gives them meaning, and general
  lemmas state what each shape accepts without the matcher.
- `CountryTable` holds one constant per class.
- `BankAccountValidations` has the concern as functions on a record, plus the
  `BankAccount` class. The class keeps the record's attributes and its error
  list. Its validator methods append to that list, in registration order.
- `CountryRules` holds one lemma per class and per code. Each states, without
  the matcher, exactly which values that class accepts.
- `RubyStrings` models `to_s`, `blank?` and `present?`.

**Reading time.** `calculateReadingTime` counts the words of an article and
turns the count into minutes. It removes HTML tags, collapses whitespace,
trims, splits on whitespace and drops empty pieces. Below 200 words the
result is 0; otherwise it is the count divided by 200, rounded up.
`formatReadingTime` renders a number of minutes as `N min read`, and 0 as the
empty string. The module `ReadingTime` models each step as a function on
strings. It proves the whole pipeline equal to one independent definition:
the words are the maximal runs of non-whitespace in the tag-stripped text.

Where the design description and the code disagree, the model follows the
code:

- The summary hash always has a `routing_number` key. For Israel its value is
  `nil`; the key is not left out.
- The formats do not all match the whole string. Patterns written with `^` and
  `$` accept a value when any one of its lines matches, so `"ABCDEFGH\nxyz"`
  is a valid bank code for those classes (`Patterns.AnyLineAcceptsMore`).
  Patterns ending in `\z` but starting with `^` judge the last line only.
  Patterns written `\A...\z` match the whole value.
- Mauritius writes its bank code with a lazy quantifier, `{8,11}?$`. Anchored
  by `$`, it accepts exactly what `{8,11}$` accepts, and it is modelled that
  way.
- Nigeria, Israel and Malaysia register `validate_account_number` a second
  time with a production-only condition. Rails keeps one callback per method
  name and the later registration replaces the earlier one. So their account
  number is checked only in production (`ProductionOnlyAccountGuard`).

Values from outside the record are parameters, gathered in `Env`:

- whether the process runs in production;
- the IBAN library's verdict on an account number;
- the account-type modules of Chile and Colombia;
- the ISO 3166 lookup used by the European class.

## Model

| member | source | states |
|---|---|---|
| BankAccountValidations.BankAccount.ValidateBankCode | app/models/concerns/bank_account_validations.rb:45-49 | appends the bank-code error exactly when the class has a bank-code format and `bank_code.to_s` does not match it; nothing else changes |
| BankAccountValidations.BankAccount.ValidateBranchCode | app/models/concerns/bank_account_validations.rb:51-55 | the same for the branch code and its format |
| BankAccountValidations.BankAccount.ValidateAccountNumber | app/models/concerns/bank_account_validations.rb:57-69 | Kuwait and Israel: the account-number error exactly when the IBAN check fails; other classes: exactly when a format exists and the decrypted number does not match it |
| BankAccountValidations.BankAccount.ValidatePresence | app/models/dominican_republic_bank_account.rb:11-12 | appends a blank-bank-code error and then a blank-account-number error, each exactly when that field is blank |
| BankAccountValidations.BankAccount.ValidateAccountTypeInclusion | app/models/chile_bank_account.rb:13 | appends the inclusion error exactly when the account type is not one of the class account types |
| BankAccountValidations.BankAccount.SetDefaultAccountType | app/models/chile_bank_account.rb:28-30 | sets the account type to the class checking type and changes nothing else |
| BankAccountValidations.BankAccount.RunConcernValidators | app/models/concerns/bank_account_validations.rb:9-11 | appends the bank-code, branch-code and account-number errors in registration order; the account-number check runs only where the class lets it run |
| BankAccountValidations.BankAccount.RunClassValidators | app/models/chile_bank_account.rb:12-13 | appends the errors of the validations a class declares after including the concern (Dominican Republic presence, Chile and Colombia account-type inclusion) |
| BankAccountValidations.BankAccount.Validate | app/models/concerns/bank_account_validations.rb:6-12 | runs the create hook, then every validator; the errors are exactly those of the checks that fail, and the result is true iff there is none |
| BankAccountValidations.ErrorsReportEachFailingCheck | app/models/concerns/bank_account_validations.rb:45-69 | each of the six errors is in the list iff its check fails (both directions), for every class, record and environment |
| BankAccountValidations.ErrorCountIsFailingChecks | app/models/concerns/bank_account_validations.rb:45-69 | the number of errors equals the number of failing checks: no error is reported twice and none without cause |
| BankAccountValidations.ValidIffEveryCheckPasses | app/models/concerns/bank_account_validations.rb:9-11 | a record is valid iff its bank code and branch code pass, its account number passes where checked, and the class-specific checks pass |
| BankAccountValidations.ProductionOnlyAccountGuard | app/models/nigeria_bank_account.rb:14 | for Nigeria, Israel and Malaysia the account-number error never appears outside production, and in production appears iff the number fails |
| BankAccountValidations.IbanDecidesAccountNumber | app/models/concerns/bank_account_validations.rb:59-62 | for Kuwait and Israel the account number passes iff the IBAN check accepts it, whatever the format constants |
| BankAccountValidations.NilCheckedAsEmpty | app/models/concerns/bank_account_validations.rb:47 | a missing bank code, branch code or (non-IBAN) account number is judged exactly as the empty string, as `to_s` makes it |
| BankAccountValidations.DefaultAccountType | app/models/chile_bank_account.rb:12 | the create hook changes only the account type, and only on create when it is missing and the class has account types; it then becomes the checking type |
| BankAccountValidations.RoutingNumberCases | app/models/concerns/bank_account_validations.rb:14-30 | Israel: none; Armenia: the bank code; Japan with a branch code: bank then branch code; other classes with a branch code: bank code, hyphen, branch code; without a branch code: the bank code |
| BankAccountValidations.HyphenatedRoutingSplitsBack | app/models/concerns/bank_account_validations.rb:25 | a hyphenated routing number splits at its first hyphen back into the bank code and the branch code |
| BankAccountValidations.VisualMasksAllButLastFour | app/models/concerns/bank_account_validations.rb:32-34 | the masked number ends with the last four and everything before them is the class prefix and six asterisks; with no prefix it is six asterisks then the last four |
| BankAccountValidations.ToHashShape | app/models/concerns/bank_account_validations.rb:36-42 | the summary has exactly the three keys, holding the routing number (nil included), the masked number and the type code |
| Patterns.AnyLineAcceptsMore | app/models/concerns/bank_account_validations.rb:47 | a `^...$` pattern accepts a multi-line value iff it accepts its first line or the rest |
| Patterns.LastLineOnlyIgnoresEarlier | app/models/ecuador_bank_account.rb:7 | a `^...\z` pattern judges only the text after the last line break |
| Patterns.RunFormat | app/models/concerns/bank_account_validations.rb:47 | a pattern made of one bounded class run accepts exactly the values (whole, some line, or last line, by anchor) that are such runs |
| Patterns.AnyLineBic | app/models/kenya_bank_account.rb:8 | the business-identifier-code pattern accepts a value iff some line has the layout of ISO 9362: 4 letters, 2 letters, 2 letters or digits, optionally 3 more |
| Patterns.InfixMeaning | app/models/korea_bank_account.rb:8 | a fixed run, a literal, then a bounded run: the value has the three parts at the right places and nothing else |
| Patterns.PrefixThenRun | app/models/madagascar_bank_account.rb:8 | a literal then a fixed run: the value starts with the literal and the rest is the run |
| CountryRules.AlbaniaRules | app/models/albania_bank_account.rb:6-19 | type code `AL`, currency ALL; country AL (ISO ALB); no format check on the branch code and account number (every value passes) |
| CountryRules.AlbaniaBankCode | app/models/albania_bank_account.rb:7 | a bank code passes exactly when one of its lines is 8 to 11 ASCII letters or digits |
| CountryRules.AlgeriaRules | app/models/algeria_bank_account.rb:6-20 | type code `DZ`, currency DZD; country DZ (ISO DZA); no format check on the branch code (every value passes) |
| CountryRules.AlgeriaBankCode | app/models/algeria_bank_account.rb:7 | a bank code passes exactly when one of its lines is 8 to 11 ASCII letters or digits |
| CountryRules.AlgeriaAccountNumber | app/models/algeria_bank_account.rb:8 | an account number passes exactly when one of its lines is exactly 20 digits |
| CountryRules.AngolaRules | app/models/angola_bank_account.rb:6-19 | type code `AO`, currency AOA; country AO (ISO AGO); no format check on the branch code and account number (every value passes) |
| CountryRules.AngolaBankCode | app/models/angola_bank_account.rb:7 | a bank code passes exactly when one of its lines is 8 to 11 ASCII letters or digits |
| CountryRules.AntiguaAndBarbudaRules | app/models/antigua_and_barbuda_bank_account.rb:6-20 | type code `AG`, currency XCD; country AG (ISO ATG); no format check on the branch code (every value passes) |
| CountryRules.AntiguaAndBarbudaBankCode | app/models/antigua_and_barbuda_bank_account.rb:7 | a bank code passes exactly when one of its lines is 8 to 11 ASCII letters or digits |
| CountryRules.AntiguaAndBarbudaAccountNumber | app/models/antigua_and_barbuda_bank_account.rb:8 | an account number passes exactly when one of its lines is 1 to 32 ASCII letters or digits |
| CountryRules.ArmeniaRules | app/models/armenia_bank_account.rb:6-24 | type code `AM`, currency AMD; country AM (ISO ARM); no format check on the branch code (every value passes); routing number is the bank code alone |
| CountryRules.ArmeniaBankCode | app/models/armenia_bank_account.rb:7 | a bank code passes exactly when one of its lines is 8 to 11 ASCII letters or digits |
| CountryRules.ArmeniaAccountNumber | app/models/armenia_bank_account.rb:8 | an account number passes exactly when one of its lines is 11 to 16 digits |
| CountryRules.AzerbaijanRules | app/models/azerbaijan_bank_account.rb:6-20 | type code `AZ`, currency AZN; country AZ (ISO AZE); no format check on the account number (every value passes) |
| CountryRules.AzerbaijanBankCode | app/models/azerbaijan_bank_account.rb:7 | a bank code passes exactly when one of its lines is exactly 6 digits |
| CountryRules.AzerbaijanBranchCode | app/models/azerbaijan_bank_account.rb:8 | a branch code passes exactly when one of its lines is exactly 6 digits |
| CountryRules.BahamasRules | app/models/bahamas_bank_account.rb:6-20 | type code `BS`, currency BSD; country BS (ISO BHS); no format check on the branch code (every value passes) |
| CountryRules.BahamasBankCode | app/models/bahamas_bank_account.rb:7 | a bank code passes exactly when one of its lines is 8 to 11 ASCII letters or digits |
| CountryRules.BahamasAccountNumber | app/models/bahamas_bank_account.rb:8 | an account number passes exactly when one of its lines is 1 to 10 digits |
| CountryRules.BahrainRules | app/models/bahrain_bank_account.rb:6-20 | type code `BH`, currency BHD; country BH (ISO BHR); no format check on the branch code and account number (every value passes) |
| CountryRules.BahrainBankCode | app/models/bahrain_bank_account.rb:8 | a bank code passes exactly when one of its lines is 8 to 11 ASCII letters or digits |
| CountryRules.BangladeshRules | app/models/bangladesh_bank_account.rb:6-20 | type code `BD`, currency BDT; country BD (ISO BGD); no format check on the branch code (every value passes) |
| CountryRules.BangladeshBankCode | app/models/bangladesh_bank_account.rb:7 | a bank code passes exactly when one of its lines is exactly 9 ASCII letters or digits |
| CountryRules.BangladeshAccountNumber | app/models/bangladesh_bank_account.rb:8 | an account number passes exactly when one of its lines is 13 to 17 ASCII letters or digits |
| CountryRules.BhutanRules | app/models/bhutan_bank_account.rb:6-20 | type code `BT`, currency BTN; country BT (ISO BTN); no format check on the branch code (every value passes) |
| CountryRules.BhutanBankCode | app/models/bhutan_bank_account.rb:7 | a bank code passes exactly when one of its lines is 8 to 11 ASCII letters or digits |
| CountryRules.BhutanAccountNumber | app/models/bhutan_bank_account.rb:8 | an account number passes exactly when one of its lines is 1 to 17 ASCII letters or digits |
| CountryRules.BoliviaRules | app/models/bolivia_bank_account.rb:6-20 | type code `BO`, currency BOB; country BO (ISO BOL); no format check on the branch code (every value passes) |
| CountryRules.BoliviaBankCode | app/models/bolivia_bank_account.rb:7 | a bank code passes exactly when one of its lines is 1 to 3 digits |
| CountryRules.BoliviaAccountNumber | app/models/bolivia_bank_account.rb:8 | an account number passes exactly when one of its lines is 10 to 15 digits |
| CountryRules.BruneiRules | app/models/brunei_bank_account.rb:6-20 | type code `BN`, currency BND; country BN (ISO BRN); no format check on the branch code (every value passes) |
| CountryRules.BruneiBankCode | app/models/brunei_bank_account.rb:7 | a bank code passes exactly when one of its lines is 8 to 11 ASCII letters or digits |
| CountryRules.BruneiAccountNumber | app/models/brunei_bank_account.rb:8 | an account number passes exactly when one of its lines is 1 to 13 digits |
| CountryRules.ChileRules | app/models/chile_bank_account.rb:7-24 | type code `CL`, currency CLP; country CL (ISO CHL); no format check on the branch code (every value passes) |
| CountryRules.ChileBankCode | app/models/chile_bank_account.rb:8 | a bank code passes exactly when the whole value is exactly 3 digits |
| CountryRules.ChileAccountNumber | app/models/chile_bank_account.rb:9 | an account number passes exactly when the whole value is 5 to 25 digits |
| CountryRules.ChileAccountType | app/models/chile_bank_account.rb:12-30 | on create, a missing account type becomes the class checking type (otherwise unchanged); the inclusion error is reported exactly when the type is not one of the class types |
| CountryRules.ColombiaRules | app/models/colombia_bank_account.rb:7-24 | type code `CO`, currency COP; country CO (ISO COL); no format check on the branch code (every value passes) |
| CountryRules.ColombiaBankCode | app/models/colombia_bank_account.rb:8 | a bank code passes exactly when the whole value is exactly 3 digits |
| CountryRules.ColombiaAccountNumber | app/models/colombia_bank_account.rb:9 | an account number passes exactly when the whole value is 9 to 16 digits |
| CountryRules.ColombiaAccountType | app/models/colombia_bank_account.rb:12-30 | on create, a missing account type becomes the class checking type (otherwise unchanged); the inclusion error is reported exactly when the type is not one of the class types |
| CountryRules.DominicanRepublicRules | app/models/dominican_republic_bank_account.rb:6-23 | type code `DO`, currency DOP; country DO (ISO DOM); no format check on the branch code (every value passes) |
| CountryRules.DominicanRepublicBankCode | app/models/dominican_republic_bank_account.rb:7 | a bank code passes exactly when one of its lines is 1 to 3 digits |
| CountryRules.DominicanRepublicAccountNumber | app/models/dominican_republic_bank_account.rb:8 | an account number passes exactly when one of its lines is 1 to 28 digits |
| CountryRules.DominicanRepublicPresence | app/models/dominican_republic_bank_account.rb:11-12 | a blank-bank-code and a blank-account-number error are reported exactly when that field is blank |
| CountryRules.EcuadorRules | app/models/ecuador_bank_account.rb:6-20 | type code `EC`, currency USD; country EC (ISO ECU); no format check on the branch code (every value passes) |
| CountryRules.EcuadorBankCode | app/models/ecuador_bank_account.rb:7 | a bank code passes exactly when its last line is 8 to 11 ASCII letters or digits |
| CountryRules.EcuadorAccountNumber | app/models/ecuador_bank_account.rb:8 | an account number passes exactly when the whole value is 5 to 18 digits |
| CountryRules.EgyptRules | app/models/egypt_bank_account.rb:6-20 | type code `EG`, currency EGP; country EG (ISO EGY); no format check on the branch code and account number (every value passes) |
| CountryRules.EgyptBankCode | app/models/egypt_bank_account.rb:8 | a bank code passes exactly when one of its lines is a BIC: 4 letters, 2 letters, 2 letters or digits, then optionally 3 more; a single line of 9 or 10 characters never passes |
| CountryRules.EthiopiaRules | app/models/ethiopia_bank_account.rb:6-20 | type code `ET`, currency ETB; country ET (ISO ETH); no format check on the branch code (every value passes) |
| CountryRules.EthiopiaBankCode | app/models/ethiopia_bank_account.rb:7 | a bank code passes exactly when one of its lines is 8 to 11 ASCII letters or digits |
| CountryRules.EthiopiaAccountNumber | app/models/ethiopia_bank_account.rb:8 | an account number passes exactly when one of its lines is 13 to 16 ASCII letters or digits |
| CountryRules.EuropeanRules | app/models/european_bank_account.rb:6-17 | type code `EU`, currency EUR; no format check on the bank code, branch code and account number (every value passes); country is the ISO lookup of the first two characters of the decrypted account number (all of it when shorter), none when there is none |
| CountryRules.GabonRules | app/models/gabon_bank_account.rb:6-20 | type code `GA`, currency XAF; country GA (ISO GAB); no format check on the branch code (every value passes) |
| CountryRules.GabonBankCode | app/models/gabon_bank_account.rb:7 | a bank code passes exactly when one of its lines is 8 to 11 ASCII letters or digits |
| CountryRules.GabonAccountNumber | app/models/gabon_bank_account.rb:8 | an account number passes exactly when one of its lines is exactly 23 digits |
| CountryRules.GhanaRules | app/models/ghana_bank_account.rb:6-23 | type code `GH`, currency GHS; country GH (ISO GHA); no format check on the branch code (every value passes) |
| CountryRules.GhanaBankCode | app/models/ghana_bank_account.rb:8 | a bank code passes exactly when the whole value is exactly 6 digits |
| CountryRules.GhanaAccountNumber | app/models/ghana_bank_account.rb:11 | an account number passes exactly when the whole value is 8 to 20 digits |
| CountryRules.GuatemalaRules | app/models/guatemala_bank_account.rb:6-20 | type code `GT`, currency GTQ; country GT (ISO GTM); no format check on the branch code (every value passes) |
| CountryRules.GuatemalaBankCode | app/models/guatemala_bank_account.rb:7 | a bank code passes exactly when one of its lines is 8 to 11 ASCII letters or digits |
| CountryRules.GuatemalaAccountNumber | app/models/guatemala_bank_account.rb:8 | an account number passes exactly when one of its lines is 1 to 34 ASCII letters or digits |
| CountryRules.IndonesiaRules | app/models/indonesia_bank_account.rb:6-23 | type code `ID`, currency IDR; country ID (ISO IDN); no format check on the branch code (every value passes) |
| CountryRules.IndonesiaBankCode | app/models/indonesia_bank_account.rb:8 | a bank code passes exactly when the whole value is 3 to 4 ASCII letters or digits |
| CountryRules.IndonesiaAccountNumber | app/models/indonesia_bank_account.rb:11 | an account number passes exactly when the whole value is 1 to 35 digits |
| CountryRules.IsraelRules | app/models/israel_bank_account.rb:6-24 | type code `IL`, currency ILS; country IL (ISO ISR); no format check on the bank code and branch code (every value passes); account number checked only in production; masked number is `IL******` then the last four |
| CountryRules.JamaicaRules | app/models/jamaica_bank_account.rb:6-21 | type code `JM`, currency JMD; country JM (ISO JAM) |
| CountryRules.JamaicaBankCode | app/models/jamaica_bank_account.rb:7 | a bank code passes exactly when one of its lines is exactly 3 digits |
| CountryRules.JamaicaBranchCode | app/models/jamaica_bank_account.rb:8 | a branch code passes exactly when one of its lines is exactly 5 digits |
| CountryRules.JamaicaAccountNumber | app/models/jamaica_bank_account.rb:9 | an account number passes exactly when one of its lines is 1 to 18 digits |
| CountryRules.JapanRules | app/models/japan_bank_account.rb:6-26 | type code `JP`, currency JPY; country JP (ISO JPN) |
| CountryRules.JapanBankCode | app/models/japan_bank_account.rb:8 | a bank code passes exactly when the whole value is exactly 4 digits |
| CountryRules.JapanBranchCode | app/models/japan_bank_account.rb:11 | a branch code passes exactly when the whole value is exactly 3 digits |
| CountryRules.JapanAccountNumber | app/models/japan_bank_account.rb:14 | an account number passes exactly when the whole value is 4 to 8 digits |
| CountryRules.JapanRoutingNumber | app/models/concerns/bank_account_validations.rb:22-23 | routing number is bank code and branch code run together with no hyphen; for valid codes it is 7 digits that split back into the two codes |
| CountryRules.JordanRules | app/models/jordan_bank_account.rb:6-20 | type code `JO`, currency JOD; country JO (ISO JOR); no format check on the branch code and account number (every value passes) |
| CountryRules.JordanBankCode | app/models/jordan_bank_account.rb:8 | a bank code passes exactly when one of its lines is 8 to 11 ASCII letters or digits |
| CountryRules.KazakhstanRules | app/models/kazakhstan_bank_account.rb:6-19 | type code `KZ`, currency KZT; country KZ (ISO KAZ); no format check on the branch code and account number (every value passes) |
| CountryRules.KazakhstanBankCode | app/models/kazakhstan_bank_account.rb:7 | a bank code passes exactly when its last line is 8 to 11 ASCII letters or digits |
| CountryRules.KenyaRules | app/models/kenya_bank_account.rb:6-23 | type code `KE`, currency KES; country KE (ISO KEN); no format check on the branch code (every value passes) |
| CountryRules.KenyaBankCode | app/models/kenya_bank_account.rb:8 | a bank code passes exactly when one of its lines is a BIC: 4 letters, 2 letters, 2 letters or digits, then optionally 3 more; a single line of 9 or 10 characters never passes |
| CountryRules.KenyaAccountNumber | app/models/kenya_bank_account.rb:11 | an account number passes exactly when the whole value is 1 to 32 ASCII letters or digits; the empty value fails |
| CountryRules.KoreaRules | app/models/korea_bank_account.rb:6-23 | type code `KR`, currency KRW; country KR (ISO KOR); no format check on the branch code (every value passes) |
| CountryRules.KoreaBankCode | app/models/korea_bank_account.rb:8 | a bank code passes exactly when the whole value has 8 to 11 characters: 4 letters, `KR`, then letters or digits; lower-case `kr` in that place fails it |
| CountryRules.KoreaAccountNumber | app/models/korea_bank_account.rb:11 | an account number passes exactly when the whole value is 11 to 15 digits |
| CountryRules.KuwaitRules | app/models/kuwait_bank_account.rb:6-20 | type code `KW`, currency KWD; country KW (ISO KWT); no format check on the branch code (every value passes); account number checked in every environment (IBAN check) |
| CountryRules.KuwaitBankCode | app/models/kuwait_bank_account.rb:8 | a bank code passes exactly when one of its lines is 8 to 11 ASCII letters or digits |
| CountryRules.LaosRules | app/models/laos_bank_account.rb:6-20 | type code `LA`, currency LAK; country LA (ISO LAO); no format check on the branch code (every value passes) |
| CountryRules.LaosBankCode | app/models/laos_bank_account.rb:7 | a bank code passes exactly when one of its lines is 8 to 11 ASCII letters or digits |
| CountryRules.LaosAccountNumber | app/models/laos_bank_account.rb:8 | an account number passes exactly when one of its lines is 1 to 18 ASCII letters or digits |
| CountryRules.MacaoRules | app/models/macao_bank_account.rb:6-23 | type code `MO`, currency MOP; country MO (ISO MAC); no format check on the branch code (every value passes) |
| CountryRules.MacaoBankCode | app/models/macao_bank_account.rb:8 | a bank code passes exactly when one of its lines is 8 to 11 ASCII letters or digits |
| CountryRules.MacaoAccountNumber | app/models/macao_bank_account.rb:11 | an account number passes exactly when one of its lines is 1 to 19 digits |
| CountryRules.MadagascarRules | app/models/madagascar_bank_account.rb:6-20 | type code `MG`, currency MGA; country MG (ISO MDG); no format check on the branch code (every value passes) |
| CountryRules.MadagascarBankCode | app/models/madagascar_bank_account.rb:7 | a bank code passes exactly when one of its lines is a BIC: 4 letters, 2 letters, 2 letters or digits, then optionally 3 more; a single line of 9 or 10 characters never passes |
| CountryRules.MadagascarAccountNumber | app/models/madagascar_bank_account.rb:8 | an account number passes exactly when one of its lines is `MG` followed by 25 digits; a single line starting with lower-case `mg` never passes |
| CountryRules.MalaysiaRules | app/models/malaysia_bank_account.rb:6-25 | type code `MY`, currency MYR; country MY (ISO MYS); no format check on the branch code (every value passes); account number checked only in production |
| CountryRules.MalaysiaBankCode | app/models/malaysia_bank_account.rb:8 | a bank code passes exactly when one of its lines is 8 to 11 ASCII letters or digits |
| CountryRules.MalaysiaAccountNumber | app/models/malaysia_bank_account.rb:11 | an account number passes exactly when one of its lines is 5 to 17 digits |
| CountryRules.MauritiusRules | app/models/mauritius_bank_account.rb:6-19 | type code `MU`, currency MUR; country MU (ISO MUS); no format check on the branch code and account number (every value passes) |
| CountryRules.MauritiusBankCode | app/models/mauritius_bank_account.rb:7 | a bank code passes exactly when one of its lines is 8 to 11 ASCII letters or digits |
| CountryRules.MozambiqueRules | app/models/mozambique_bank_account.rb:6-20 | type code `MZ`, currency MZN; country MZ (ISO MOZ); no format check on the branch code (every value passes) |
| CountryRules.MozambiqueBankCode | app/models/mozambique_bank_account.rb:7 | a bank code passes exactly when one of its lines is 8 to 11 ASCII letters or digits |
| CountryRules.MozambiqueAccountNumber | app/models/mozambique_bank_account.rb:8 | an account number passes exactly when one of its lines is exactly 21 ASCII letters or digits |
| CountryRules.NamibiaRules | app/models/namibia_bank_account.rb:6-20 | type code `NA`, currency NAD; country NA (ISO NAM); no format check on the branch code (every value passes) |
| CountryRules.NamibiaBankCode | app/models/namibia_bank_account.rb:7 | a bank code passes exactly when one of its lines is 8 to 11 ASCII letters or digits |
| CountryRules.NamibiaAccountNumber | app/models/namibia_bank_account.rb:8 | an account number passes exactly when one of its lines is 8 to 13 ASCII letters or digits |
| CountryRules.NigeriaRules | app/models/nigeria_bank_account.rb:6-30 | type code `NG`, currency NGN; country NG (ISO NGA); no format check on the branch code (every value passes); account number checked only in production; masked number is `NG******` then the last four |
| CountryRules.NigeriaBankCode | app/models/nigeria_bank_account.rb:8 | a bank code passes exactly when one of its lines is 8 to 11 ASCII letters or digits |
| CountryRules.NigeriaAccountNumber | app/models/nigeria_bank_account.rb:11 | an account number passes exactly when one of its lines is exactly 10 digits |
| CountryRules.NorthMacedoniaRules | app/models/north_macedonia_bank_account.rb:6-20 | type code `MK`, currency MKD; country MK (ISO MKD); no format check on the branch code (every value passes) |
| CountryRules.NorthMacedoniaBankCode | app/models/north_macedonia_bank_account.rb:7 | a bank code passes exactly when the whole value is 8 to 11 ASCII letters or digits |
| CountryRules.NorthMacedoniaAccountNumber | app/models/north_macedonia_bank_account.rb:8 | an account number passes exactly when the whole value is exactly 19 ASCII letters or digits |
| CountryRules.NorwayRules | app/models/norway_bank_account.rb:6-17 | type code `NO`, currency NOK; country NO (ISO NOR); no format check on the bank code, branch code and account number (every value passes); masked number is `******` then the last four |
| CountryRules.OmanRules | app/models/oman_bank_account.rb:6-20 | type code `OM`, currency OMR; country OM (ISO OMN); no format check on the branch code (every value passes) |
| CountryRules.OmanBankCode | app/models/oman_bank_account.rb:7 | a bank code passes exactly when its last line has 8 to 11 characters: 4 upper-case letters, `OM`, then upper-case letters or digits; a lower-case letter in the last line fails it |
| CountryRules.OmanAccountNumber | app/models/oman_bank_account.rb:8 | an account number passes exactly when one of its lines is 6 to 16 digits |
| CountryRules.PakistanRules | app/models/pakistan_bank_account.rb:6-20 | type code `PK`, currency PKR; country PK (ISO PAK); no format check on the branch code and account number (every value passes) |
| CountryRules.PakistanBankCode | app/models/pakistan_bank_account.rb:8 | a bank code passes exactly when one of its lines is a BIC: 4 letters, 2 letters, 2 letters or digits, then optionally 3 more; a single line of 9 or 10 characters never passes |
| CountryRules.PanamaRules | app/models/panama_bank_account.rb:6-20 | type code `PA`, currency USD; country PA (ISO PAN); no format check on the branch code (every value passes) |
| CountryRules.PanamaBankCode | app/models/panama_bank_account.rb:7 | a bank code passes exactly when one of its lines has 11 characters: 4 upper-case letters, `PAPA`, 3 upper-case letters or digits |
| CountryRules.PanamaAccountNumber | app/models/panama_bank_account.rb:8 | an account number passes exactly when one of its lines is 1 to 18 digits |
| CountryRules.ParaguayRules | app/models/paraguay_bank_account.rb:6-20 | type code `PY`, currency PYG; country PY (ISO PRY); no format check on the branch code (every value passes) |
| CountryRules.ParaguayBankCode | app/models/paraguay_bank_account.rb:7 | a bank code passes exactly when the whole value is 1 to 2 digits |
| CountryRules.ParaguayAccountNumber | app/models/paraguay_bank_account.rb:8 | an account number passes exactly when the whole value is 1 to 16 digits |
| CountryRules.PhilippinesRules | app/models/philippines_bank_account.rb:6-23 | type code `PH`, currency PHP; country PH (ISO PHL); no format check on the branch code (every value passes) |
| CountryRules.PhilippinesBankCode | app/models/philippines_bank_account.rb:8 | a bank code passes exactly when the whole value is 8 to 11 ASCII letters or digits |
| CountryRules.PhilippinesAccountNumber | app/models/philippines_bank_account.rb:11 | an account number passes exactly when the whole value is 1 to 17 digits |
| CountryRules.QatarRules | app/models/qatar_bank_account.rb:6-20 | type code `QA`, currency QAR; country QA (ISO QAT); no format check on the branch code (every value passes) |
| CountryRules.QatarBankCode | app/models/qatar_bank_account.rb:7 | a bank code passes exactly when one of its lines is exactly 11 ASCII letters or digits |
| CountryRules.QatarAccountNumber | app/models/qatar_bank_account.rb:8 | an account number passes exactly when one of its lines is exactly 29 ASCII letters or digits |
| CountryRules.SaintLuciaRules | app/models/saint_lucia_bank_account.rb:6-20 | type code `LC`, currency XCD; country LC (ISO LCA); no format check on the branch code (every value passes) |
| CountryRules.SaintLuciaBankCode | app/models/saint_lucia_bank_account.rb:7 | a bank code passes exactly when one of its lines is 8 to 11 ASCII letters or digits |
| CountryRules.SaintLuciaAccountNumber | app/models/saint_lucia_bank_account.rb:8 | an account number passes exactly when one of its lines is 1 to 32 ASCII letters or digits |
| CountryRules.SaudiArabiaRules | app/models/saudi_arabia_bank_account.rb:6-19 | type code `SA`, currency SAR; country SA (ISO SAU); no format check on the branch code and account number (every value passes) |
| CountryRules.SaudiArabiaBankCode | app/models/saudi_arabia_bank_account.rb:7 | a bank code passes exactly when one of its lines is a BIC: 4 letters, 2 letters, 2 letters or digits, then optionally 3 more; a single line of 9 or 10 characters never passes |
| CountryRules.SingaporeanRules | app/models/singaporean_bank_account.rb:6-26 | type code `SG`, currency SGD; country SG (ISO SGP) |
| CountryRules.SingaporeanBankCode | app/models/singaporean_bank_account.rb:8 | a bank code passes exactly when the whole value is exactly 4 digits |
| CountryRules.SingaporeanBranchCode | app/models/singaporean_bank_account.rb:11 | a branch code passes exactly when the whole value is exactly 3 digits |
| CountryRules.SingaporeanAccountNumber | app/models/singaporean_bank_account.rb:14 | an account number passes exactly when the whole value is 6 to 19 digits |
| CountryRules.SouthAfricaRules | app/models/south_africa_bank_account.rb:6-23 | type code `ZA`, currency ZAR; country ZA (ISO ZAF); no format check on the branch code (every value passes) |
| CountryRules.SouthAfricaBankCode | app/models/south_africa_bank_account.rb:8 | a bank code passes exactly when one of its lines is a BIC: 4 letters, 2 letters, 2 letters or digits, then optionally 3 more; a single line of 9 or 10 characters never passes |
| CountryRules.SouthAfricaAccountNumber | app/models/south_africa_bank_account.rb:11 | an account number passes exactly when the whole value is 1 to 16 ASCII letters or digits |
| CountryRules.SriLankaRules | app/models/sri_lanka_bank_account.rb:6-22 | type code `LK`, currency LKR; country LK (ISO LKA) |
| CountryRules.SriLankaBankCode | app/models/sri_lanka_bank_account.rb:8 | a bank code passes exactly when one of its lines is exactly 11 ASCII letters or digits |
| CountryRules.SriLankaBranchCode | app/models/sri_lanka_bank_account.rb:9 | a branch code passes exactly when one of its lines is exactly 7 digits |
| CountryRules.SriLankaAccountNumber | app/models/sri_lanka_bank_account.rb:10 | an account number passes exactly when one of its lines is 10 to 18 digits |
| CountryRules.TaiwanRules | app/models/taiwan_bank_account.rb:6-23 | type code `TW`, currency TWD; country TW (ISO TWN); no format check on the branch code (every value passes) |
| CountryRules.TaiwanBankCode | app/models/taiwan_bank_account.rb:8 | a bank code passes exactly when one of its lines is a BIC: 4 letters, 2 letters, 2 letters or digits, then optionally 3 more; a single line of 9 or 10 characters never passes |
| CountryRules.TaiwanAccountNumber | app/models/taiwan_bank_account.rb:11 | an account number passes exactly when the whole value is 10 to 14 digits |
| CountryRules.TanzaniaRules | app/models/tanzania_bank_account.rb:6-20 | type code `TZ`, currency TZS; country TZ (ISO TZA); no format check on the branch code (every value passes) |
| CountryRules.TanzaniaBankCode | app/models/tanzania_bank_account.rb:7 | a bank code passes exactly when one of its lines is 8 to 11 ASCII letters or digits |
| CountryRules.TanzaniaAccountNumber | app/models/tanzania_bank_account.rb:8 | an account number passes exactly when one of its lines is 10 to 14 ASCII letters or digits |
| CountryRules.ThailandRules | app/models/thailand_bank_account.rb:6-23 | type code `TH`, currency THB; country TH (ISO THA); no format check on the branch code (every value passes) |
| CountryRules.ThailandBankCode | app/models/thailand_bank_account.rb:8 | a bank code passes exactly when the whole value is exactly 3 digits |
| CountryRules.ThailandAccountNumber | app/models/thailand_bank_account.rb:11 | an account number passes exactly when the whole value is 6 to 15 digits |
| CountryRules.TrinidadAndTobagoRules | app/models/trinidad_and_tobago_bank_account.rb:6-21 | type code `TT`, currency TTD; country TT (ISO TTO) |
| CountryRules.TrinidadAndTobagoBankCode | app/models/trinidad_and_tobago_bank_account.rb:7 | a bank code passes exactly when the whole value is exactly 3 digits |
| CountryRules.TrinidadAndTobagoBranchCode | app/models/trinidad_and_tobago_bank_account.rb:8 | a branch code passes exactly when the whole value is exactly 5 digits |
| CountryRules.TrinidadAndTobagoAccountNumber | app/models/trinidad_and_tobago_bank_account.rb:9 | an account number passes exactly when the whole value is 1 to 17 digits |
| CountryRules.TunisiaRules | app/models/tunisia_bank_account.rb:6-17 | type code `TN`, currency TND; country TN (ISO TUN); no format check on the bank code, branch code and account number (every value passes) |
| CountryRules.TurkeyRules | app/models/turkey_bank_account.rb:6-20 | type code `TR`, currency TRY; country TR (ISO TUR); no format check on the branch code and account number (every value passes) |
| CountryRules.TurkeyBankCode | app/models/turkey_bank_account.rb:8 | a bank code passes exactly when one of its lines is a BIC: 4 letters, 2 letters, 2 letters or digits, then optionally 3 more; a single line of 9 or 10 characters never passes |
| CountryRules.UruguayRules | app/models/uruguay_bank_account.rb:6-21 | type code `UY`, currency UYU; country UY (ISO URY); no format check on the branch code (every value passes) |
| CountryRules.UruguayBankCode | app/models/uruguay_bank_account.rb:8 | a bank code passes exactly when one of its lines is exactly 3 digits |
| CountryRules.UruguayAccountNumber | app/models/uruguay_bank_account.rb:9 | an account number passes exactly when one of its lines is 1 to 12 digits |
| CountryRules.UzbekistanRules | app/models/uzbekistan_bank_account.rb:6-21 | type code `UZ`, currency UZS; country UZ (ISO UZB) |
| CountryRules.UzbekistanBankCode | app/models/uzbekistan_bank_account.rb:7 | a bank code passes exactly when one of its lines is 8 to 11 ASCII letters or digits |
| CountryRules.UzbekistanBranchCode | app/models/uzbekistan_bank_account.rb:8 | a branch code passes exactly when one of its lines is exactly 5 digits |
| CountryRules.UzbekistanAccountNumber | app/models/uzbekistan_bank_account.rb:9 | an account number passes exactly when one of its lines is 5 to 20 digits |
| CountryRules.VietnamRules | app/models/vietnam_bank_account.rb:6-23 | type code `VN`, currency VND; country VN (ISO VNM); no format check on the branch code (every value passes) |
| CountryRules.VietnamBankCode | app/models/vietnam_bank_account.rb:8 | a bank code passes exactly when the whole value is exactly 8 digits |
| CountryRules.VietnamAccountNumber | app/models/vietnam_bank_account.rb:11 | an account number passes exactly when the whole value is 1 to 17 digits |
| ReadingTime.CalculateReadingTime | app/javascript/utils/readingTime.ts:30-49 | the result is the minute count for the number of whitespace-separated words left once tags are removed; empty and all-whitespace text give 0 |
| ReadingTime.MinutesFor | app/javascript/utils/readingTime.ts:40-43 | 0 iff fewer than 200 words; otherwise the least m with m * 200 >= words, at least 1 |
| ReadingTime.MinutesMonotone | app/javascript/utils/readingTime.ts:40-43 | more words never give fewer minutes |
| ReadingTime.WordCountIsWords | app/javascript/utils/readingTime.ts:36-37 | collapsing whitespace, trimming, splitting and dropping empty pieces count exactly the words of the tag-stripped text |
| ReadingTime.SplitCountsWords | app/javascript/utils/readingTime.ts:37 | the non-empty pieces of a whitespace split are as many as the words |
| ReadingTime.CollapseKeepsWords | app/javascript/utils/readingTime.ts:36 | replacing whitespace runs by one space keeps the word count |
| ReadingTime.Collapse | app/javascript/utils/readingTime.ts:36 | the result is no longer than the input, starts with whitespace iff the input does, and has only single plain spaces as whitespace |
| ReadingTime.TrimKeepsWords | app/javascript/utils/readingTime.ts:36 | trimming keeps the word count |
| ReadingTime.Trim | app/javascript/utils/readingTime.ts:33 | the result is empty iff the text is all whitespace, and otherwise starts and ends with a non-whitespace character |
| ReadingTime.StripTagsLeavesNoTag | app/javascript/utils/readingTime.ts:36 | after tag removal no `<` is followed later by a `>` |
| ReadingTime.StripTagsKeepsTagFree | app/javascript/utils/readingTime.ts:36 | text without a complete tag is left unchanged |
| ReadingTime.StripTagsIdempotent | app/javascript/utils/readingTime.ts:36 | removing tags twice is removing them once |
| ReadingTime.StripTagsKeepsText | app/javascript/utils/readingTime.ts:36 | for markup built from tags and tag-free text, tag removal returns exactly the text chunks, in order |
| ReadingTime.TagJoinsWords | app/javascript/utils/readingTime.ts:36 | a tag between two words is deleted with no space left in its place, so the two words count as one |
| ReadingTime.BlankMarkupReadsZero | app/javascript/utils/readingTime.ts:33 | markup whose text is all whitespace reads as 0 minutes |
| ReadingTime.FormatReadingTime | app/javascript/utils/readingTime.ts:64-67 | the empty string iff minutes is 0 |
| ReadingTime.FormatReadsBack | app/javascript/utils/readingTime.ts:66 | for non-zero minutes the result ends in ` min read` and the text before it is the decimal number, sign included, that reads back to minutes |
| ReadingTime.OneMinute | app/javascript/utils/readingTime.ts:66 | one minute formats as `1 min read` |
| ReadingTime.DecimalRoundTrip | app/javascript/utils/readingTime.ts:66 | the decimal digits of a natural number read back to it |

## Left out

- IBAN validity is a parameter (`Env.ibanValid`). The IBAN library is not part of this model.
- `Rails.env.production?`, the `AccountType` modules of Chile and Colombia and the `ISO3166::Country` lookup are parameters.
- Currencies are modelled by the name of their `Currency` constant. Countries are modelled by the ISO 3166 codes of their `Compliance::Countries` constant. The constants' own values are not part of this model.
- Encryption of the account number is left out. The decrypted number and the stored last four digits are inputs.
- The validations and callbacks of the `BankAccount` base class are not part of this model. `Validate` runs only those of the concern and of the per-country classes.
- `respond_to?(:branch_code)` is taken to be true: every class has the attribute.
- `alias_attribute :bank_code, :bank_number` is modelled by one `bankCode` field.
- Ruby's `match?` is modelled only for the regex subset the classes use, on `\n` line breaks. Other line terminators, Unicode classes and regex features no class uses are left out.
- `calculateReadingTime` divides in floating point and then calls `Math.ceil`. For word counts (non-negative integers far below 2^53) this is the integer ceiling, which is what the model computes.
- ReadingTime.CalculateReadingTime: takes a string. The early return for `null`, `undefined` and non-string arguments is not modelled, because the type rules those inputs out.
- The `try`/`catch` around the count and the `console.warn` are left out: nothing in the modelled steps throws.
- Strings are sequences of Unicode code points. JavaScript strings are UTF-16 code units; this makes no difference to tag removal, the whitespace set or word counts.
- ReadingTime.FormatReadingTime: takes an integer. Fractional numbers, `NaN`, the infinities and magnitudes of 10^21 and more, which JavaScript prints in other notations, are not modelled.
- The React components that show the reading time are not part of this model.
