/**
 * The sharded on-disk cell dataset (YandexProvider::searchForCellIdLocation),
 * over a sequence of already-parsed shard files in directory traversal order.
 */
module Shards {
  import opened Basics
  import opened CellData

  /** Every readable shard file starts with this magic number ... */
  const Magic: int := 0x0c71_0cdb
  /** ... followed by this format version. */
  const FormatVersion: int := 3

  /**
   * One file found under the dataset root: its path, the two header words read
   * from it, and the cell map it holds.
   */
  datatype ShardFile = ShardFile(
    path: string, magic: int, version: int, cells: map<UniqueCellId, Coords>)

  function DigitChar(d: nat): (c: char)
    requires d < 10
    ensures '0' <= c <= '9'
  {
    (48 + d) as char
  }

  predicate AllDigits(s: string) {
    forall i :: 0 <= i < |s| ==> '0' <= s[i] <= '9'
  }

  /** Decimal text of a number, as QString::number writes it. */
  function Decimal(n: nat): (s: string)
    ensures 1 <= |s|
    ensures AllDigits(s)
    decreases n
  {
    if n < 10 then [DigitChar(n)] else Decimal(n / 10) + [DigitChar(n % 10)]
  }

  /** The number a string of decimal digits denotes. */
  function DecimalValue(s: string): nat
    requires AllDigits(s)
    decreases |s|
  {
    if s == [] then 0 else DecimalValue(s[..|s| - 1]) * 10 + (s[|s| - 1] as int - 48)
  }

  /** Decimal is faithful: reading its text back gives the number. */
  lemma {:induction false} DecimalRoundTrip(n: nat)
    ensures DecimalValue(Decimal(n)) == n
    decreases n
  {
    if n >= 10 {
      DecimalRoundTrip(n / 10);
      var s := Decimal(n);
      assert s[..|s| - 1] == Decimal(n / 10);
    }
  }

  /** The leading digit is '0' only for zero. */
  lemma {:induction false} LeadingDigitZero(n: nat)
    ensures Decimal(n)[0] == '0' <==> n == 0
    decreases n
  {
    if n >= 10 {
      LeadingDigitZero(n / 10);
    }
  }

  function LowerAscii(c: char): char {
    if 'A' <= c <= 'Z' then (c as int + 32) as char else c
  }

  /** QString::endsWith with Qt::CaseInsensitive, for ASCII text, compared from the last character back. */
  predicate EndsWithIgnoringCase(s: string, suffix: string)
    decreases |suffix|
  {
    |suffix| <= |s| &&
    (|suffix| == 0 ||
     (LowerAscii(s[|s| - 1]) == LowerAscii(suffix[|suffix| - 1])
      && EndsWithIgnoringCase(s[..|s| - 1], suffix[..|suffix| - 1])))
  }

  /** The path ending of the shard files for one leading digit. */
  function ShardSuffix(digit: char): string {
    "/" + [digit] + "/mlsdb.data"
  }

  /** The shard directory of a key: the first decimal digit of its location code. */
  function ShardDigit(id: UniqueCellId): char {
    DigitChar(LeadingDigit(id.locationCode))
  }

  /** The leading decimal digit of a number. */
  function LeadingDigit(n: nat): (d: nat)
    ensures d < 10
  {
    if n < 10 then n else LeadingDigit(n / 10)
  }

  /** The leading digit is the first character of the decimal text. */
  lemma {:induction false} LeadingDigitIsFirst(n: nat)
    ensures Decimal(n)[0] == DigitChar(LeadingDigit(n))
  {
    if n >= 10 {
      LeadingDigitIsFirst(n / 10);
    }
  }

  /** The file is one the search opens for this key. */
  predicate Opened(f: ShardFile, id: UniqueCellId) {
    EndsWithIgnoringCase(f.path, ShardSuffix(ShardDigit(id)))
  }

  /** The file's header is accepted. */
  predicate Readable(f: ShardFile) {
    f.magic == Magic && f.version == FormatVersion
  }

  /** The file is opened for this key, accepted, and holds it. */
  predicate Answers(f: ShardFile, id: UniqueCellId) {
    Opened(f, id) && Readable(f) && id in f.cells
  }

  /** The location of a key: from the first file that answers for it. */
  function Lookup(files: seq<ShardFile>, id: UniqueCellId): Option<Coords>
    decreases |files|
  {
    if files == [] then None
    else if Answers(files[0], id) then Some(files[0].cells[id])
    else Lookup(files[1..], id)
  }

  /**
   * Lookup finds a location exactly when some file answers for the key, and
   * then it is the location held by the first such file.
   */
  lemma {:induction false} LookupIsFirstAnswer(files: seq<ShardFile>, id: UniqueCellId)
    ensures Lookup(files, id).Some? <==> exists i :: 0 <= i < |files| && Answers(files[i], id)
    ensures forall i ::
      (0 <= i < |files| && Answers(files[i], id) && forall j :: 0 <= j < i ==> !Answers(files[j], id))
      ==> Lookup(files, id) == Some(files[i].cells[id])
    decreases |files|
  {
    if files != [] {
      LookupIsFirstAnswer(files[1..], id);
      assert forall i :: 1 <= i < |files| ==> files[i] == files[1..][i - 1];
      if !Answers(files[0], id) {
        forall i | 0 <= i < |files| && Answers(files[i], id) && (forall j :: 0 <= j < i ==> !Answers(files[j], id))
          ensures Lookup(files, id) == Some(files[i].cells[id])
        {
          assert i >= 1;
          assert forall j :: 0 <= j < i - 1 ==> files[1..][j] == files[j + 1];
        }
        if exists i :: 0 <= i < |files| && Answers(files[i], id) {
          var i :| 0 <= i < |files| && Answers(files[i], id);
          assert Answers(files[1..][i - 1], id);
        }
      }
    }
  }

  /**
   * A file that is not opened for the key, or whose magic or version is wrong,
   * can be removed without changing the outcome of any search for the key.
   */
  lemma {:induction false} SkippedFileIrrelevant(files: seq<ShardFile>, k: nat, id: UniqueCellId)
    requires k < |files|
    requires !Opened(files[k], id) || !Readable(files[k])
    ensures Lookup(files[..k] + files[k + 1..], id) == Lookup(files, id)
    decreases k
  {
    if k == 0 {
      assert files[..0] + files[1..] == files[1..];
    } else {
      SkippedFileIrrelevant(files[1..], k - 1, id);
      var rest := files[..k] + files[k + 1..];
      assert rest[0] == files[0];
      assert rest[1..] == files[1..][..k - 1] + files[1..][k..];
    }
  }

  /**
   * Search the dataset for a key (YandexProvider::searchForCellIdLocation):
   * files in traversal order whose path ends in "/<first digit>/mlsdb.data"
   * are opened, files with a wrong magic or version are skipped, and the
   * first file holding the key answers.
   */
  method SearchForCellIdLocation(files: seq<ShardFile>, id: UniqueCellId) returns (coords: Option<Coords>)
    ensures coords == Lookup(files, id)
    ensures coords.Some? <==> exists i :: 0 <= i < |files| && Answers(files[i], id)
  {
    LookupIsFirstAnswer(files, id);
    LeadingDigitIsFirst(id.locationCode);
    var firstDigitAreaCode := Decimal(id.locationCode)[0];
    var i := 0;
    while i < |files|
      invariant 0 <= i <= |files|
      invariant Lookup(files[i..], id) == Lookup(files, id)
    {
      var f := files[i];
      assert files[i..][1..] == files[i + 1..];
      if EndsWithIgnoringCase(f.path, ShardSuffix(firstDigitAreaCode)) {
        if f.magic != Magic {
          i := i + 1;
          continue;
        }
        if f.version != FormatVersion {
          i := i + 1;
          continue;
        }
        if id in f.cells {
          return Some(f.cells[id]);
        }
      }
      i := i + 1;
    }
    return None;
  }
}
