/**
 * The analyzer's own logic around the external tools: reading the commit hash out of
 * `git ls-remote` output, turning the line counter's report into a record (paths made
 * relative to the repository), and ordering the languages by size.
 */
module Counter {
  import opened Wrappers
  import opened Text
  import opened Data

  /** The message returned when the `ls-remote` output yields no first piece. */
  const SPLIT_FAILED := "Failed to split result by '\t' to extract hash from the 'git ls-remote'!"

  /**
   * `get_latest_hash`, given the decoded standard output of `git ls-remote <url> HEAD`
   * (or the message of whichever of spawning, the exit status or UTF-8 decoding failed).
   * The hash is the text before the first tab; the branch taken on a missing first piece
   * can never be reached.
   */
  function GetLatestHash(lsRemote: Result<string>): (r: Result<string>)
    ensures lsRemote.Err? ==> r == lsRemote
    ensures lsRemote.Ok? ==> r.Ok?
    ensures lsRemote.Ok? ==> r.value <= lsRemote.value && '\t' !in r.value
    ensures lsRemote.Ok? && |r.value| < |lsRemote.value| ==> lsRemote.value[|r.value|] == '\t'
    ensures lsRemote.Ok? && '\t' !in lsRemote.value ==> r.value == lsRemote.value
  {
    match lsRemote
    case Err(message) => Err(message)
    case Ok(output) =>
      match Next(Split(output, '\t'))
      case Some(v) => Ok(v)
      case None => Err(SPLIT_FAILED)
  }

  /** One file of a language as the line counter reports it: its full path and counts. */
  datatype FileReport = FileReport(path: string, stats: Info)

  /** One language as the line counter reports it, files already in the counter's order. */
  datatype LanguageReport = LanguageReport(name: string, stats: Info, reports: seq<FileReport>)

  /** The line counter's result for a cloned repository: overall counts and the languages. */
  datatype Scan = Scan(total: Info, languages: seq<LanguageReport>)

  /**
   * The path of a file relative to the repository: everything up to and including the
   * first occurrence of `reponame` and the one character after it is dropped. `None`
   * stands for the panic of the source when `reponame` is not found or the offset runs
   * past the end of the path.
   */
  function StripPath(path: string, reponame: string): (r: Option<string>)
    ensures r.Some? ==> exists i :: (IsFirstOccurrence(path, reponame, i) &&
      i + |reponame| + 1 <= |path| && r.value == path[i + |reponame| + 1..])
    ensures Occurs(path, reponame) && FirstOccurrence(path, reponame).value + |reponame| + 1 <= |path| ==> r.Some?
    ensures !Occurs(path, reponame) ==> r.None?
  {
    match FirstOccurrence(path, reponame)
    case None => None
    case Some(i) =>
      var offset := i + |reponame| + 1;
      assert IsFirstOccurrence(path, reponame, i);
      if offset <= |path| then Some(path[offset..]) else None
  }

  /**
   * Stripping works as intended when the repository is cloned into `<root>/<reponame>`,
   * the repository name holds no `/`, and it does not already occur in the root:
   * `<root>/<reponame>/<rest>` becomes `<rest>`.
   */
  lemma StripPathUnderRoot(root: string, reponame: string, rest: string)
    requires '/' !in reponame
    requires !Occurs(root, reponame)
    ensures StripPath(root + "/" + reponame + "/" + rest, reponame) == Some(rest)
  {
    var path := root + "/" + reponame + "/" + rest;
    var at := |root| + 1;
    assert path[at..at + |reponame|] == reponame;
    assert IsOccurrence(path, reponame, at);
    forall i | 0 <= i < at
      ensures !IsOccurrence(path, reponame, i)
    {
      if i + |reponame| <= |root| {
        assert path[i..i + |reponame|] == root[i..i + |reponame|];
        assert !IsOccurrence(root, reponame, i);
      } else if i + |reponame| <= |path| {
        // the window starting at i covers the separator after the root
        assert path[i..i + |reponame|][|root| - i] == path[|root|] == '/';
      }
    }
    assert path[at + |reponame| + 1..] == rest;
  }

  /**
   * When the repository name does occur in the root (a repository called `repositories`
   * cloned under `/tmp/cloned_repositories.XXXX`), the first match is in the root and the
   * stored path keeps a piece of the temporary directory: it is longer than `<rest>` and
   * still ends with `<reponame>/<rest>`.
   */
  lemma StripPathRootCollision(root: string, reponame: string, rest: string)
    requires Occurs(root, reponame)
    ensures var path := root + "/" + reponame + "/" + rest;
      var r := StripPath(path, reponame);
      r.Some? && |r.value| >= |reponame| + 1 + |rest| &&
      r.value[|r.value| - |rest| - |reponame| - 1..] == reponame + "/" + rest
  {
    var path := root + "/" + reponame + "/" + rest;
    var w :| 0 <= w <= |root| && IsOccurrence(root, reponame, w);
    assert path[w..w + |reponame|] == root[w..w + |reponame|];
    assert IsOccurrence(path, reponame, w);
    var found := FirstOccurrence(path, reponame);
    assert found.Some?;
    var i := found.value;
    assert i <= w;
    var tail := path[i + |reponame| + 1..];
    assert StripPath(path, reponame) == Some(tail);
    assert |tail| >= |reponame| + |rest| + 1;
    assert path[|root| + 1..] == reponame + "/" + rest;
    assert tail[|tail| - |rest| - |reponame| - 1..] == path[|root| + 1..];
  }

  /** The entry for one reported file: its stripped path and its counts. */
  function FileEntry(report: FileReport, reponame: string): Option<FileInfo>
  {
    match StripPath(report.path, reponame)
    case None => None
    case Some(name) => Some(FileInfo(name, report.stats))
  }

  /**
   * The files of one language with their paths made relative, in report order; `None`
   * exactly when some path cannot be stripped.
   */
  function StrippedFiles(reports: seq<FileReport>, reponame: string): (r: Option<seq<FileInfo>>)
    ensures r.None? <==> exists k :: 0 <= k < |reports| && FileEntry(reports[k], reponame).None?
    ensures r.Some? ==> |r.value| == |reports|
    ensures r.Some? ==> forall k :: 0 <= k < |reports| ==> FileEntry(reports[k], reponame) == Some(r.value[k])
    decreases |reports|
  {
    if reports == [] then Some([])
    else
      var init := reports[..|reports| - 1];
      assert forall k :: 0 <= k < |init| ==> init[k] == reports[k];
      match StrippedFiles(init, reponame)
      case None => None
      case Some(files) =>
        match FileEntry(reports[|reports| - 1], reponame)
        case None => None
        case Some(file) =>
          var all := files + [file];
          assert forall k :: 0 <= k < |init| ==> all[k] == files[k];
          Some(all)
  }

  /** The entry for one reported language: its name, its counts and its stripped files. */
  function LanguageEntry(item: LanguageReport, reponame: string): Option<LanguageInfo>
  {
    match StrippedFiles(item.reports, reponame)
    case None => None
    case Some(files) => Some(LanguageInfo(item.name, item.stats, files))
  }

  /**
   * One entry per reported language, in report order, each the language's name and counts
   * with exactly its stripped files; `None` exactly when some file path cannot be stripped.
   */
  function Languages(langs: seq<LanguageReport>, reponame: string): (r: Option<seq<LanguageInfo>>)
    ensures r.None? <==> exists k :: 0 <= k < |langs| && LanguageEntry(langs[k], reponame).None?
    ensures r.Some? ==> |r.value| == |langs|
    ensures r.Some? ==> forall k :: 0 <= k < |langs| ==> LanguageEntry(langs[k], reponame) == Some(r.value[k])
    decreases |langs|
  {
    if langs == [] then Some([])
    else
      var init := langs[..|langs| - 1];
      assert forall k :: 0 <= k < |init| ==> init[k] == langs[k];
      match Languages(init, reponame)
      case None => None
      case Some(done) =>
        match LanguageEntry(langs[|langs| - 1], reponame)
        case None => None
        case Some(entry) => Some(done + [entry])
  }

  /** The sort key: all lines of a language, summed in 64 bits, which three 32-bit counts cannot overflow. */
  function Lines(i: Info): (n: u64)
    ensures n < 3 * 0x1_0000_0000
    ensures n >= i.code && n >= i.comments && n >= i.blanks
  {
    i.code + i.comments + i.blanks
  }

  /** Languages ordered by total lines, largest first. */
  predicate NonIncreasing(s: seq<LanguageInfo>)
  {
    forall p, q :: 0 <= p < q < |s| ==> Lines(s[q].total) <= Lines(s[p].total)
  }

  /** Exchanges two neighbouring languages. */
  method SwapDown(a: array<LanguageInfo>, j: nat)
    requires 0 < j < a.Length
    modifies a
    ensures a[j - 1] == old(a[j]) && a[j] == old(a[j - 1])
    ensures forall k :: 0 <= k < a.Length && k != j - 1 && k != j ==> a[k] == old(a[k])
    ensures multiset(a[..]) == multiset(old(a[..]))
  {
    a[j - 1], a[j] := a[j], a[j - 1];
  }

  /** The first `n` languages of `a` are ordered by total lines, largest first. */
  ghost predicate SortedPrefix(a: array<LanguageInfo>, n: int)
    reads a
  {
    forall p, q :: 0 <= p < q < n && q < a.Length ==> Lines(a[q].total) <= Lines(a[p].total)
  }

  /** Moves `a[i]` left past every smaller neighbour, so that the first `i + 1` languages are ordered. */
  method InsertDown(a: array<LanguageInfo>, i: nat)
    requires i < a.Length && SortedPrefix(a, i)
    modifies a
    ensures SortedPrefix(a, i + 1)
    ensures forall k :: i < k < a.Length ==> a[k] == old(a[k])
    ensures multiset(a[..]) == multiset(old(a[..]))
  {
    var j := i;
    while j > 0 && Lines(a[j - 1].total) < Lines(a[j].total)
      invariant 0 <= j <= i
      invariant forall p, q :: 0 <= p < q <= i && p != j && q != j ==> Lines(a[q].total) <= Lines(a[p].total)
      invariant forall q :: j < q <= i ==> Lines(a[q].total) < Lines(a[j].total)
      invariant forall k :: i < k < a.Length ==> a[k] == old(a[k])
      invariant multiset(a[..]) == multiset(old(a[..]))
    {
      SwapDown(a, j);
      j := j - 1;
    }
    forall p, q | 0 <= p < q <= i
      ensures Lines(a[q].total) <= Lines(a[p].total)
    {
      if q == j {
        // the loop stopped at a neighbour at least as large
        assert Lines(a[j].total) <= Lines(a[j - 1].total);
      }
    }
  }

  /** `data.languages.sort_by(...)`: orders the languages in place, largest total first. */
  method SortByLines(a: array<LanguageInfo>)
    modifies a
    ensures NonIncreasing(a[..])
    ensures multiset(a[..]) == multiset(old(a[..]))
  {
    var i := 0;
    while i < a.Length
      invariant 0 <= i <= a.Length
      invariant SortedPrefix(a, i)
      invariant multiset(a[..]) == multiset(old(a[..]))
    {
      InsertDown(a, i);
      i := i + 1;
    }
  }

  /** How a run of the analyzer ends: a record, an error message, or a panic. */
  datatype Analysis = Analyzed(data: Record) | Failed(message: string) | Panicked

  /**
   * The body of the language loop of `get_data_from_repo`: a language with the reported
   * counts, to which each file report is pushed with its path made relative. `None` is the
   * panic of the source on a path it cannot strip.
   */
  method CollectLanguage(item: LanguageReport, reponame: string) returns (r: Option<LanguageInfo>)
    ensures r == LanguageEntry(item, reponame)
  {
    var lang := NewLanguageInfo(item.name, item.stats);
    for j := 0 to |item.reports|
      invariant lang.name == item.name && lang.total == item.stats
      invariant StrippedFiles(item.reports[..j], reponame) == Some(lang.files)
    {
      var report := item.reports[j];
      var name := report.path;
      var found := FirstOccurrence(name, reponame);
      if found.None? || found.value + |reponame| + 1 > |name| {
        // `find(..).unwrap()` or `drain(..offset)` panics
        assert FileEntry(item.reports[j], reponame).None?;
        return None;
      }
      var offset := found.value + |reponame| + 1;
      name := name[offset..];
      lang := lang.(files := lang.files + [FileInfo(name, report.stats)]);
      assert FileEntry(report, reponame) == Some(FileInfo(name, report.stats));
      assert item.reports[..j + 1][..j] == item.reports[..j];
    }
    assert item.reports[..|item.reports|] == item.reports;
    return Some(lang);
  }

  /**
   * `get_data_from_repo`, given the outcome of creating the temporary directory and
   * cloning, and the counter's report (`scan`: `Err` for a failure of the first two; counting
   * itself has no error). The record belongs to `repoUrl`, carries the overall counts,
   * an empty hash and one entry per language with exactly that language's files, sorted
   * by total lines, largest first.
   */
  method GetDataFromRepo(username: string, reponame: string, repoUrl: string, scan: Result<Scan>,
                         verifiedTime: nat) returns (r: Analysis)
    ensures scan.Err? ==> r == Failed(scan.error)
    ensures scan.Ok? ==> !r.Failed?
    ensures scan.Ok? ==> (r.Panicked? <==> Languages(scan.value.languages, reponame).None?)
    ensures r.Analyzed? ==> scan.Ok? && Languages(scan.value.languages, reponame).Some?
    ensures r.Analyzed? ==>
      r.data.repo == repoUrl && r.data.hash == "" && r.data.total == scan.value.total &&
      r.data.verifiedTime == verifiedTime && NonIncreasing(r.data.languages) &&
      multiset(r.data.languages) == multiset(Languages(scan.value.languages, reponame).value)
  {
    if scan.Err? {
      return Failed(scan.error);
    }
    var counted := scan.value;
    var data := NewRecord(repoUrl, counted.total, verifiedTime);
    for i := 0 to |counted.languages|
      invariant data.repo == repoUrl && data.hash == "" && data.total == counted.total
      invariant data.verifiedTime == verifiedTime
      invariant Languages(counted.languages[..i], reponame) == Some(data.languages)
    {
      var lang := CollectLanguage(counted.languages[i], reponame);
      if lang.None? {
        assert Languages(counted.languages, reponame).None?;
        return Panicked;
      }
      data := data.(languages := data.languages + [lang.value]);
      assert counted.languages[..i + 1][..i] == counted.languages[..i];
    }
    assert counted.languages[..|counted.languages|] == counted.languages;
    var unsorted := data.languages;
    var a := new LanguageInfo[|unsorted|](k requires 0 <= k < |unsorted| => unsorted[k]);
    assert a[..] == unsorted;
    SortByLines(a);
    data := data.(languages := a[..]);
    return Analyzed(data);
  }
}
