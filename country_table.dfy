/**
 * The constants each per-country bank-account class declares: its payout type
 * code (BANK_ACCOUNT_TYPE), its country and currency, and the optional
 * BANK_CODE_FORMAT_REGEX, BRANCH_CODE_FORMAT_REGEX and
 * ACCOUNT_NUMBER_FORMAT_REGEX, each regex transliterated into a Patterns.Format.
 */
module CountryTable {
  import opened Wrappers
  import opened Patterns

  /** One constructor per class `<Name>BankAccount` that includes the validations concern. */
  datatype Country =
    | Albania
    | Algeria
    | Angola
    | AntiguaAndBarbuda
    | Armenia
    | Azerbaijan
    | Bahamas
    | Bahrain
    | Bangladesh
    | Bhutan
    | Bolivia
    | Brunei
    | Chile
    | Colombia
    | DominicanRepublic
    | Ecuador
    | Egypt
    | Ethiopia
    | European
    | Gabon
    | Ghana
    | Guatemala
    | Indonesia
    | Israel
    | Jamaica
    | Japan
    | Jordan
    | Kazakhstan
    | Kenya
    | Korea
    | Kuwait
    | Laos
    | Macao
    | Madagascar
    | Malaysia
    | Mauritius
    | Mozambique
    | Namibia
    | Nigeria
    | NorthMacedonia
    | Norway
    | Oman
    | Pakistan
    | Panama
    | Paraguay
    | Philippines
    | Qatar
    | SaintLucia
    | SaudiArabia
    | Singaporean
    | SouthAfrica
    | SriLanka
    | Taiwan
    | Tanzania
    | Thailand
    | TrinidadAndTobago
    | Tunisia
    | Turkey
    | Uruguay
    | Uzbekistan
    | Vietnam

  /** The class's `country`: a fixed ISO 3166-1 country, or (EuropeanBankAccount) one looked up from the account number. */
  datatype CountrySource =
    | Fixed(alpha3: string, alpha2: string)   // Compliance::Countries::<alpha3>.alpha2
    | FromAccountNumberPrefix

  /** A bank-account class: its name and the constants it declares. */
  datatype AccountClass = AccountClass(
    id: Country,                            // the class itself, for the checks that name it
    typeCode: string,                       // BANK_ACCOUNT_TYPE
    country: CountrySource,                 // #country
    currency: string,                       // the name of the Currency constant #currency returns
    bankCodeFormat: Option<Format>,         // BANK_CODE_FORMAT_REGEX, when the class defines it
    branchCodeFormat: Option<Format>,       // BRANCH_CODE_FORMAT_REGEX, when the class defines it
    accountNumberFormat: Option<Format>)    // ACCOUNT_NUMBER_FORMAT_REGEX, when the class defines it

  // app/models/albania_bank_account.rb
  const AlbaniaBankAccount := AccountClass(Albania, "AL", Fixed("ALB", "AL"), "ALL",
    Some(Format(AnyLine, [Run(Alnum, 8, 11)])),
    None,
    None)

  // app/models/algeria_bank_account.rb
  const AlgeriaBankAccount := AccountClass(Algeria, "DZ", Fixed("DZA", "DZ"), "DZD",
    Some(Format(AnyLine, [Run(Alnum, 8, 11)])),
    None,
    Some(Format(AnyLine, [Run(Digit, 20, 20)])))

  // app/models/angola_bank_account.rb
  const AngolaBankAccount := AccountClass(Angola, "AO", Fixed("AGO", "AO"), "AOA",
    Some(Format(AnyLine, [Run(Alnum, 8, 11)])),
    None,
    None)

  // app/models/antigua_and_barbuda_bank_account.rb
  const AntiguaAndBarbudaBankAccount := AccountClass(AntiguaAndBarbuda, "AG", Fixed("ATG", "AG"), "XCD",
    Some(Format(AnyLine, [Run(Alnum, 8, 11)])),
    None,
    Some(Format(AnyLine, [Run(Alnum, 1, 32)])))

  // app/models/armenia_bank_account.rb
  const ArmeniaBankAccount := AccountClass(Armenia, "AM", Fixed("ARM", "AM"), "AMD",
    Some(Format(AnyLine, [Run(Alnum, 8, 11)])),
    None,
    Some(Format(AnyLine, [Run(Digit, 11, 16)])))

  // app/models/azerbaijan_bank_account.rb
  const AzerbaijanBankAccount := AccountClass(Azerbaijan, "AZ", Fixed("AZE", "AZ"), "AZN",
    Some(Format(AnyLine, [Run(Digit, 6, 6)])),
    Some(Format(AnyLine, [Run(Digit, 6, 6)])),
    None)

  // app/models/bahamas_bank_account.rb
  const BahamasBankAccount := AccountClass(Bahamas, "BS", Fixed("BHS", "BS"), "BSD",
    Some(Format(AnyLine, [Run(Alnum, 8, 11)])),
    None,
    Some(Format(AnyLine, [Run(Digit, 1, 10)])))

  // app/models/bahrain_bank_account.rb
  const BahrainBankAccount := AccountClass(Bahrain, "BH", Fixed("BHR", "BH"), "BHD",
    Some(Format(AnyLine, [Run(Alnum, 8, 11)])),
    None,
    None)

  // app/models/bangladesh_bank_account.rb
  const BangladeshBankAccount := AccountClass(Bangladesh, "BD", Fixed("BGD", "BD"), "BDT",
    Some(Format(AnyLine, [Run(Alnum, 9, 9)])),
    None,
    Some(Format(AnyLine, [Run(Alnum, 13, 17)])))

  // app/models/bhutan_bank_account.rb
  const BhutanBankAccount := AccountClass(Bhutan, "BT", Fixed("BTN", "BT"), "BTN",
    Some(Format(AnyLine, [Run(Alnum, 8, 11)])),
    None,
    Some(Format(AnyLine, [Run(Alnum, 1, 17)])))

  // app/models/bolivia_bank_account.rb
  const BoliviaBankAccount := AccountClass(Bolivia, "BO", Fixed("BOL", "BO"), "BOB",
    Some(Format(AnyLine, [Run(Digit, 1, 3)])),
    None,
    Some(Format(AnyLine, [Run(Digit, 10, 15)])))

  // app/models/brunei_bank_account.rb
  const BruneiBankAccount := AccountClass(Brunei, "BN", Fixed("BRN", "BN"), "BND",
    Some(Format(AnyLine, [Run(Alnum, 8, 11)])),
    None,
    Some(Format(AnyLine, [Run(Digit, 1, 13)])))

  // app/models/chile_bank_account.rb
  const ChileBankAccount := AccountClass(Chile, "CL", Fixed("CHL", "CL"), "CLP",
    Some(Format(Whole, [Run(Digit, 3, 3)])),
    None,
    Some(Format(Whole, [Run(Digit, 5, 25)])))

  // app/models/colombia_bank_account.rb
  const ColombiaBankAccount := AccountClass(Colombia, "CO", Fixed("COL", "CO"), "COP",
    Some(Format(Whole, [Run(Digit, 3, 3)])),
    None,
    Some(Format(Whole, [Run(Digit, 9, 16)])))

  // app/models/dominican_republic_bank_account.rb
  const DominicanRepublicBankAccount := AccountClass(DominicanRepublic, "DO", Fixed("DOM", "DO"), "DOP",
    Some(Format(AnyLine, [Run(Digit, 1, 3)])),
    None,
    Some(Format(AnyLine, [Run(Digit, 1, 28)])))

  // app/models/ecuador_bank_account.rb
  const EcuadorBankAccount := AccountClass(Ecuador, "EC", Fixed("ECU", "EC"), "USD",
    Some(Format(LastLineOnly, [Run(Alnum, 8, 11)])),
    None,
    Some(Format(Whole, [Run(Digit, 5, 18)])))

  // app/models/egypt_bank_account.rb
  const EgyptBankAccount := AccountClass(Egypt, "EG", Fixed("EGY", "EG"), "EGP",
    Some(Format(AnyLine, [Run(Letter, 4, 4), Run(Letter, 2, 2), Run(Alnum, 2, 2), Opt(Alnum, 3)])),
    None,
    None)

  // app/models/ethiopia_bank_account.rb
  const EthiopiaBankAccount := AccountClass(Ethiopia, "ET", Fixed("ETH", "ET"), "ETB",
    Some(Format(AnyLine, [Run(Alnum, 8, 11)])),
    None,
    Some(Format(AnyLine, [Run(Alnum, 13, 16)])))

  // app/models/european_bank_account.rb
  const EuropeanBankAccount := AccountClass(European, "EU", FromAccountNumberPrefix, "EUR",
    None,
    None,
    None)

  // app/models/gabon_bank_account.rb
  const GabonBankAccount := AccountClass(Gabon, "GA", Fixed("GAB", "GA"), "XAF",
    Some(Format(AnyLine, [Run(Alnum, 8, 11)])),
    None,
    Some(Format(AnyLine, [Run(Digit, 23, 23)])))

  // app/models/ghana_bank_account.rb
  const GhanaBankAccount := AccountClass(Ghana, "GH", Fixed("GHA", "GH"), "GHS",
    Some(Format(Whole, [Run(Digit, 6, 6)])),
    None,
    Some(Format(Whole, [Run(Digit, 8, 20)])))

  // app/models/guatemala_bank_account.rb
  const GuatemalaBankAccount := AccountClass(Guatemala, "GT", Fixed("GTM", "GT"), "GTQ",
    Some(Format(AnyLine, [Run(Alnum, 8, 11)])),
    None,
    Some(Format(AnyLine, [Run(Alnum, 1, 34)])))

  // app/models/indonesia_bank_account.rb
  const IndonesiaBankAccount := AccountClass(Indonesia, "ID", Fixed("IDN", "ID"), "IDR",
    Some(Format(Whole, [Run(Alnum, 3, 4)])),
    None,
    Some(Format(Whole, [Run(Digit, 1, 35)])))

  // app/models/israel_bank_account.rb
  const IsraelBankAccount := AccountClass(Israel, "IL", Fixed("ISR", "IL"), "ILS",
    None,
    None,
    None)

  // app/models/jamaica_bank_account.rb
  const JamaicaBankAccount := AccountClass(Jamaica, "JM", Fixed("JAM", "JM"), "JMD",
    Some(Format(AnyLine, [Run(Digit, 3, 3)])),
    Some(Format(AnyLine, [Run(Digit, 5, 5)])),
    Some(Format(AnyLine, [Run(Digit, 1, 18)])))

  // app/models/japan_bank_account.rb
  const JapanBankAccount := AccountClass(Japan, "JP", Fixed("JPN", "JP"), "JPY",
    Some(Format(Whole, [Run(Digit, 4, 4)])),
    Some(Format(Whole, [Run(Digit, 3, 3)])),
    Some(Format(Whole, [Run(Digit, 4, 8)])))

  // app/models/jordan_bank_account.rb
  const JordanBankAccount := AccountClass(Jordan, "JO", Fixed("JOR", "JO"), "JOD",
    Some(Format(AnyLine, [Run(Alnum, 8, 11)])),
    None,
    None)

  // app/models/kazakhstan_bank_account.rb
  const KazakhstanBankAccount := AccountClass(Kazakhstan, "KZ", Fixed("KAZ", "KZ"), "KZT",
    Some(Format(LastLineOnly, [Run(Alnum, 8, 11)])),
    None,
    None)

  // app/models/kenya_bank_account.rb
  const KenyaBankAccount := AccountClass(Kenya, "KE", Fixed("KEN", "KE"), "KES",
    Some(Format(AnyLine, [Run(Letter, 4, 4), Run(Letter, 2, 2), Run(Alnum, 2, 2), Opt(Alnum, 3)])),
    None,
    Some(Format(Whole, [Run(Alnum, 1, 32)])))

  // app/models/korea_bank_account.rb
  const KoreaBankAccount := AccountClass(Korea, "KR", Fixed("KOR", "KR"), "KRW",
    Some(Format(Whole, [Run(Letter, 4, 4), Lit("KR"), Run(Alnum, 2, 5)])),
    None,
    Some(Format(Whole, [Run(Digit, 11, 15)])))

  // app/models/kuwait_bank_account.rb
  const KuwaitBankAccount := AccountClass(Kuwait, "KW", Fixed("KWT", "KW"), "KWD",
    Some(Format(AnyLine, [Run(Alnum, 8, 11)])),
    None,
    None)

  // app/models/laos_bank_account.rb
  const LaosBankAccount := AccountClass(Laos, "LA", Fixed("LAO", "LA"), "LAK",
    Some(Format(AnyLine, [Run(Alnum, 8, 11)])),
    None,
    Some(Format(AnyLine, [Run(Alnum, 1, 18)])))

  // app/models/macao_bank_account.rb
  const MacaoBankAccount := AccountClass(Macao, "MO", Fixed("MAC", "MO"), "MOP",
    Some(Format(AnyLine, [Run(Alnum, 8, 11)])),
    None,
    Some(Format(AnyLine, [Run(Digit, 1, 19)])))

  // app/models/madagascar_bank_account.rb
  const MadagascarBankAccount := AccountClass(Madagascar, "MG", Fixed("MDG", "MG"), "MGA",
    Some(Format(AnyLine, [Run(Letter, 4, 4), Run(Letter, 2, 2), Run(Alnum, 2, 2), Opt(Alnum, 3)])),
    None,
    Some(Format(AnyLine, [Lit("MG"), Run(Digit, 25, 25)])))

  // app/models/malaysia_bank_account.rb
  const MalaysiaBankAccount := AccountClass(Malaysia, "MY", Fixed("MYS", "MY"), "MYR",
    Some(Format(AnyLine, [Run(Alnum, 8, 11)])),
    None,
    Some(Format(AnyLine, [Run(Digit, 5, 17)])))

  // app/models/mauritius_bank_account.rb
  const MauritiusBankAccount := AccountClass(Mauritius, "MU", Fixed("MUS", "MU"), "MUR",
    Some(Format(AnyLine, [Run(Alnum, 8, 11)])),
    None,
    None)

  // app/models/mozambique_bank_account.rb
  const MozambiqueBankAccount := AccountClass(Mozambique, "MZ", Fixed("MOZ", "MZ"), "MZN",
    Some(Format(AnyLine, [Run(Alnum, 8, 11)])),
    None,
    Some(Format(AnyLine, [Run(Alnum, 21, 21)])))

  // app/models/namibia_bank_account.rb
  const NamibiaBankAccount := AccountClass(Namibia, "NA", Fixed("NAM", "NA"), "NAD",
    Some(Format(AnyLine, [Run(Alnum, 8, 11)])),
    None,
    Some(Format(AnyLine, [Run(Alnum, 8, 13)])))

  // app/models/nigeria_bank_account.rb
  const NigeriaBankAccount := AccountClass(Nigeria, "NG", Fixed("NGA", "NG"), "NGN",
    Some(Format(AnyLine, [Run(Alnum, 8, 11)])),
    None,
    Some(Format(AnyLine, [Run(Digit, 10, 10)])))

  // app/models/north_macedonia_bank_account.rb
  const NorthMacedoniaBankAccount := AccountClass(NorthMacedonia, "MK", Fixed("MKD", "MK"), "MKD",
    Some(Format(Whole, [Run(Alnum, 8, 11)])),
    None,
    Some(Format(Whole, [Run(Alnum, 19, 19)])))

  // app/models/norway_bank_account.rb
  const NorwayBankAccount := AccountClass(Norway, "NO", Fixed("NOR", "NO"), "NOK",
    None,
    None,
    None)

  // app/models/oman_bank_account.rb
  const OmanBankAccount := AccountClass(Oman, "OM", Fixed("OMN", "OM"), "OMR",
    Some(Format(LastLineOnly, [Run(Upper, 4, 4), Lit("OM"), Run(UpperOrDigit, 2, 5)])),
    None,
    Some(Format(AnyLine, [Run(Digit, 6, 16)])))

  // app/models/pakistan_bank_account.rb
  const PakistanBankAccount := AccountClass(Pakistan, "PK", Fixed("PAK", "PK"), "PKR",
    Some(Format(AnyLine, [Run(Letter, 4, 4), Run(Letter, 2, 2), Run(Alnum, 2, 2), Opt(Alnum, 3)])),
    None,
    None)

  // app/models/panama_bank_account.rb
  const PanamaBankAccount := AccountClass(Panama, "PA", Fixed("PAN", "PA"), "USD",
    Some(Format(AnyLine, [Run(Upper, 4, 4), Lit("PAPA"), Run(UpperOrDigit, 3, 3)])),
    None,
    Some(Format(AnyLine, [Run(Digit, 1, 18)])))

  // app/models/paraguay_bank_account.rb
  const ParaguayBankAccount := AccountClass(Paraguay, "PY", Fixed("PRY", "PY"), "PYG",
    Some(Format(Whole, [Run(Digit, 1, 2)])),
    None,
    Some(Format(Whole, [Run(Digit, 1, 16)])))

  // app/models/philippines_bank_account.rb
  const PhilippinesBankAccount := AccountClass(Philippines, "PH", Fixed("PHL", "PH"), "PHP",
    Some(Format(Whole, [Run(Alnum, 8, 11)])),
    None,
    Some(Format(Whole, [Run(Digit, 1, 17)])))

  // app/models/qatar_bank_account.rb
  const QatarBankAccount := AccountClass(Qatar, "QA", Fixed("QAT", "QA"), "QAR",
    Some(Format(AnyLine, [Run(Alnum, 11, 11)])),
    None,
    Some(Format(AnyLine, [Run(Alnum, 29, 29)])))

  // app/models/saint_lucia_bank_account.rb
  const SaintLuciaBankAccount := AccountClass(SaintLucia, "LC", Fixed("LCA", "LC"), "XCD",
    Some(Format(AnyLine, [Run(Alnum, 8, 11)])),
    None,
    Some(Format(AnyLine, [Run(Alnum, 1, 32)])))

  // app/models/saudi_arabia_bank_account.rb
  const SaudiArabiaBankAccount := AccountClass(SaudiArabia, "SA", Fixed("SAU", "SA"), "SAR",
    Some(Format(AnyLine, [Run(Letter, 4, 4), Run(Letter, 2, 2), Run(Alnum, 2, 2), Opt(Alnum, 3)])),
    None,
    None)

  // app/models/singaporean_bank_account.rb
  const SingaporeanBankAccount := AccountClass(Singaporean, "SG", Fixed("SGP", "SG"), "SGD",
    Some(Format(Whole, [Run(Digit, 4, 4)])),
    Some(Format(Whole, [Run(Digit, 3, 3)])),
    Some(Format(Whole, [Run(Digit, 6, 19)])))

  // app/models/south_africa_bank_account.rb
  const SouthAfricaBankAccount := AccountClass(SouthAfrica, "ZA", Fixed("ZAF", "ZA"), "ZAR",
    Some(Format(AnyLine, [Run(Letter, 4, 4), Run(Letter, 2, 2), Run(Alnum, 2, 2), Opt(Alnum, 3)])),
    None,
    Some(Format(Whole, [Run(Alnum, 1, 16)])))

  // app/models/sri_lanka_bank_account.rb
  const SriLankaBankAccount := AccountClass(SriLanka, "LK", Fixed("LKA", "LK"), "LKR",
    Some(Format(AnyLine, [Run(Alnum, 11, 11)])),
    Some(Format(AnyLine, [Run(Digit, 7, 7)])),
    Some(Format(AnyLine, [Run(Digit, 10, 18)])))

  // app/models/taiwan_bank_account.rb
  const TaiwanBankAccount := AccountClass(Taiwan, "TW", Fixed("TWN", "TW"), "TWD",
    Some(Format(AnyLine, [Run(Letter, 4, 4), Run(Letter, 2, 2), Run(Alnum, 2, 2), Opt(Alnum, 3)])),
    None,
    Some(Format(Whole, [Run(Digit, 10, 14)])))

  // app/models/tanzania_bank_account.rb
  const TanzaniaBankAccount := AccountClass(Tanzania, "TZ", Fixed("TZA", "TZ"), "TZS",
    Some(Format(AnyLine, [Run(Alnum, 8, 11)])),
    None,
    Some(Format(AnyLine, [Run(Alnum, 10, 14)])))

  // app/models/thailand_bank_account.rb
  const ThailandBankAccount := AccountClass(Thailand, "TH", Fixed("THA", "TH"), "THB",
    Some(Format(Whole, [Run(Digit, 3, 3)])),
    None,
    Some(Format(Whole, [Run(Digit, 6, 15)])))

  // app/models/trinidad_and_tobago_bank_account.rb
  const TrinidadAndTobagoBankAccount := AccountClass(TrinidadAndTobago, "TT", Fixed("TTO", "TT"), "TTD",
    Some(Format(Whole, [Run(Digit, 3, 3)])),
    Some(Format(Whole, [Run(Digit, 5, 5)])),
    Some(Format(Whole, [Run(Digit, 1, 17)])))

  // app/models/tunisia_bank_account.rb
  const TunisiaBankAccount := AccountClass(Tunisia, "TN", Fixed("TUN", "TN"), "TND",
    None,
    None,
    None)

  // app/models/turkey_bank_account.rb
  const TurkeyBankAccount := AccountClass(Turkey, "TR", Fixed("TUR", "TR"), "TRY",
    Some(Format(AnyLine, [Run(Letter, 4, 4), Run(Letter, 2, 2), Run(Alnum, 2, 2), Opt(Alnum, 3)])),
    None,
    None)

  // app/models/uruguay_bank_account.rb
  const UruguayBankAccount := AccountClass(Uruguay, "UY", Fixed("URY", "UY"), "UYU",
    Some(Format(AnyLine, [Run(Digit, 3, 3)])),
    None,
    Some(Format(AnyLine, [Run(Digit, 1, 12)])))

  // app/models/uzbekistan_bank_account.rb
  const UzbekistanBankAccount := AccountClass(Uzbekistan, "UZ", Fixed("UZB", "UZ"), "UZS",
    Some(Format(AnyLine, [Run(Alnum, 8, 11)])),
    Some(Format(AnyLine, [Run(Digit, 5, 5)])),
    Some(Format(AnyLine, [Run(Digit, 5, 20)])))

  // app/models/vietnam_bank_account.rb
  const VietnamBankAccount := AccountClass(Vietnam, "VN", Fixed("VNM", "VN"), "VND",
    Some(Format(Whole, [Run(Digit, 8, 8)])),
    None,
    Some(Format(Whole, [Run(Digit, 1, 17)])))
}
