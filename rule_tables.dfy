/** The read-only lookup tables the grouper consults, loaded once per run and
    shared by every case. */
module RuleTables {

  /** The sentinel result: no category or group claimed the case. */
  const KBBZ: string := "KBBZ"

  datatype Tables = Tables(
    /** ADRG code, or ADRG code + slice suffix, or a region sheet name -> codes */
    adrgDisOpt: map<string, set<string>>,
    /** every valid procedure code */
    allOptList: set<string>,
    /** principal diagnosis -> the categories (MDCs) it belongs to, in order */
    mainDisSheet: map<string, seq<string>>,
    /** ADRG code -> name of its entry rule */
    adrgTypeDict: map<string, string>,
    /** the nine body-region diagnosis sheets of the multi-trauma category */
    mdczDisSheet: map<string, set<string>>,
    /** diagnoses of the catch-all category Y */
    mdcyDisSheet: set<string>,
    /** category -> its candidate ADRGs, in priority order */
    mdcSubAdrg: map<string, seq<string>>,
    /** diagnosis -> severity entry: [exclusion group, "MCC" or "CC"] */
    ccmccSheet: map<string, seq<string>>,
    /** principal diagnosis -> the exclusion group it suppresses */
    excludeSheet: map<string, string>,
    /** ADRG code -> its registered DRG codes */
    adrgDrgNameSheet: map<string, seq<string>>)
}
