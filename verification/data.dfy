/** The records the service computes and caches, and the cache itself. */
module Data {

  /** Unsigned integer widths of the source's count and time fields. */
  type u32 = x: int | 0 <= x < 0x1_0000_0000
  type u64 = x: int | 0 <= x < 0x1_0000_0000_0000_0000

  /** Line counts of a file, a language or a whole repository. */
  datatype Info = Info(code: u32, comments: u32, blanks: u32)

  /** One analysed file, by its path relative to the repository root. */
  datatype FileInfo = FileInfo(name: string, stats: Info)

  /** One language: its counts and its files, in the order the analyzer reported them. */
  datatype LanguageInfo = LanguageInfo(name: string, total: Info, files: seq<FileInfo>)

  /**
   * The cached analysis of one repository: its clone URL, the commit hash it was computed
   * at, the time (in seconds) that hash was last confirmed, and the counts.
   */
  datatype Record = Record(repo: string, hash: string, verifiedTime: nat, total: Info,
                           languages: seq<LanguageInfo>)

  /** `Info::new`: the three counts, stored as given. */
  function NewInfo(code: u32, comments: u32, blanks: u32): (i: Info)
    ensures i.code == code && i.comments == comments && i.blanks == blanks
  {
    Info(code, comments, blanks)
  }

  /** `LanguageInfo::new`: a language with the given counts and no files yet. */
  function NewLanguageInfo(name: string, total: Info): (l: LanguageInfo)
    ensures l.name == name && l.total == total && l.files == []
  {
    LanguageInfo(name, total, [])
  }

  /**
   * `Data::new`: a record for `repo` with the given totals, an empty hash and no languages.
   * The time of the last confirmation is supplied by the caller.
   */
  function NewRecord(repo: string, total: Info, verifiedTime: nat): (d: Record)
    ensures d.repo == repo && d.total == total && d.verifiedTime == verifiedTime
    ensures d.hash == "" && d.languages == []
  {
    Record(repo, "", verifiedTime, total, [])
  }

  /**
   * The shared cache: one record per clone URL. Being a map, it can never hold two
   * records for the same URL.
   */
  class Database {
    var entries: map<string, Record>

    /** `init_db`: the cache starts empty. */
    constructor ()
      ensures entries == map[]
    {
      entries := map[];
    }
  }
}
