/** The draft history: finished drafts are appended to a stored list, which can be queried by
    date and by monster and exported as CSV or JSON. The file is a value the store holds; the
    clock, the random part of the id and the JSON writer are parameters. */
module DraftHistory {
  import opened Common
  import opened RtaRules

  /** A stored draft. `timestamp` is the ISO text the store wrote. */
  datatype DraftRecord = DraftRecord(
    id: string,
    timestamp: string,
    playerAPicks: seq<int>,
    playerBPicks: seq<int>,
    playerABans: seq<int>,
    playerBBans: seq<int>,
    firstPlayer: Player,
    finalTeamA: seq<int>,
    finalTeamB: seq<int>,
    recommendation: Option<string>)

  /** What the caller hands to `saveDraft`: a record without id and timestamp. */
  datatype DraftInput = DraftInput(
    playerAPicks: seq<int>,
    playerBPicks: seq<int>,
    playerABans: seq<int>,
    playerBBans: seq<int>,
    firstPlayer: Player,
    finalTeamA: seq<int>,
    finalTeamB: seq<int>,
    recommendation: Option<string>)

  function Stamp(d: DraftInput, id: string, timestamp: string): DraftRecord
  {
    DraftRecord(id, timestamp, d.playerAPicks, d.playerBPicks, d.playerABans, d.playerBBans,
                d.firstPlayer, d.finalTeamA, d.finalTeamB, d.recommendation)
  }

  /** The history file: absent, unreadable as JSON, or a list of drafts. */
  datatype HistoryFile = Missing | Unreadable | Stored(records: seq<DraftRecord>)

  /** `loadDraftHistory`: a missing or unreadable file reads as an empty history. */
  function LoadHistory(file: HistoryFile): (r: seq<DraftRecord>)
    ensures file.Stored? ==> r == file.records
    ensures !file.Stored? ==> r == []
  {
    if file.Stored? then file.records else []
  }

  /** The store of the history file. */
  class DraftStore {
    var file: HistoryFile

    constructor (file: HistoryFile)
      ensures this.file == file
    {
      this.file := file;
    }

    /** `saveDraft`: the loaded history with one record pushed at its end is written back;
        a failed write leaves the file as it was. `id` and `timestamp` stand for the clock
        and the random suffix. */
    method SaveDraft(d: DraftInput, id: string, timestamp: string, writeSucceeds: bool)
      modifies this
      ensures writeSucceeds ==> file == Stored(LoadHistory(old(file)) + [Stamp(d, id, timestamp)])
      ensures !writeSucceeds ==> file == old(file)
    {
      var history := LoadHistory(file);
      history := history + [Stamp(d, id, timestamp)];
      if writeSucceeds {
        file := Stored(history);
      }
    }
  }

  /** Saving keeps every earlier record in place and adds exactly one, at the end; over an
      unreadable file the earlier records are lost and only the new one remains. */
  lemma SaveAppends(old_: HistoryFile, d: DraftInput, id: string, timestamp: string)
    ensures var saved := LoadHistory(Stored(LoadHistory(old_) + [Stamp(d, id, timestamp)]));
      && |saved| == |LoadHistory(old_)| + 1
      && saved[..|LoadHistory(old_)|] == LoadHistory(old_)
      && saved[|saved| - 1] == Stamp(d, id, timestamp)
      && (old_.Unreadable? ==> saved == [Stamp(d, id, timestamp)])
  {
    var saved := LoadHistory(old_) + [Stamp(d, id, timestamp)];
    assert saved[..|LoadHistory(old_)|] == LoadHistory(old_);
  }

  // ---------------------------------------------------------------------------
  // Queries
  // ---------------------------------------------------------------------------

  /** `new Date(draft.timestamp)` compared with the two bounds; an unreadable date (`None`)
      compares false with both. */
  predicate InRange(instant: Option<int>, start: int, end: int)
  {
    instant.Some? && start <= instant.value && instant.value <= end
  }

  /** `getDraftsByDateRange`. `parseDate` stands for the date parser, in milliseconds. */
  function DraftsByDateRange(history: seq<DraftRecord>, start: int, end: int,
                             parseDate: string -> Option<int>): seq<DraftRecord>
  {
    Filter((d: DraftRecord) => InRange(parseDate(d.timestamp), start, end), history)
  }

  /** A draft is kept exactly when its date lies between the bounds, both included; the kept
      drafts keep their order. */
  lemma DraftsByDateRangeIff(history: seq<DraftRecord>, start: int, end: int,
                             parseDate: string -> Option<int>, d: DraftRecord)
    ensures d in DraftsByDateRange(history, start, end, parseDate) <==>
      d in history && parseDate(d.timestamp).Some? &&
      start <= parseDate(d.timestamp).value <= end
    ensures IsSubsequence(DraftsByDateRange(history, start, end, parseDate), history)
  {
    FilterIsSubsequence((d: DraftRecord) => InRange(parseDate(d.timestamp), start, end), history);
  }

  predicate Involves(d: DraftRecord, monsterId: int)
  {
    monsterId in d.playerAPicks || monsterId in d.playerBPicks ||
    monsterId in d.finalTeamA || monsterId in d.finalTeamB
  }

  /** `getDraftsWithMonster`. */
  function DraftsWithMonster(history: seq<DraftRecord>, monsterId: int): seq<DraftRecord>
  {
    Filter((d: DraftRecord) => Involves(d, monsterId), history)
  }

  /** A draft is kept exactly when the monster is in one of the two pick lists or one of the
      two final teams; bans alone do not count; order is kept. */
  lemma DraftsWithMonsterIff(history: seq<DraftRecord>, monsterId: int, d: DraftRecord)
    ensures d in DraftsWithMonster(history, monsterId) <==>
      d in history &&
      (monsterId in d.playerAPicks || monsterId in d.playerBPicks ||
       monsterId in d.finalTeamA || monsterId in d.finalTeamB)
    ensures IsSubsequence(DraftsWithMonster(history, monsterId), history)
  {
    FilterIsSubsequence((d: DraftRecord) => Involves(d, monsterId), history);
  }

  // ---------------------------------------------------------------------------
  // exportDraftHistory
  // ---------------------------------------------------------------------------

  const CsvHeaders: seq<string> := [
    "id", "timestamp", "playerAPicks", "playerBPicks", "playerABans", "playerBBans",
    "firstPlayer", "finalTeamA", "finalTeamB"]

  /** A list of ids in one CSV field: the numbers separated by semicolons. */
  function IdsField(ids: seq<int>): string
  {
    Join(";", seq(|ids|, i requires 0 <= i < |ids| => IntToString(ids[i])))
  }

  function PlayerField(p: Player): string
  {
    if p == A then "A" else "B"
  }

  /** The nine fields of a draft, in header order. */
  function CsvRow(d: DraftRecord): (r: seq<string>)
    ensures |r| == |CsvHeaders|
  {
    [d.id, d.timestamp, IdsField(d.playerAPicks), IdsField(d.playerBPicks),
     IdsField(d.playerABans), IdsField(d.playerBBans), PlayerField(d.firstPlayer),
     IdsField(d.finalTeamA), IdsField(d.finalTeamB)]
  }

  /** The header line: the column names separated by commas. */
  function HeaderText(): string
  {
    Join(",", CsvHeaders)
  }

  /** The header line holds no line break and reads back as the nine column names. */
  lemma HeaderPlain()
    ensures '\n' !in HeaderText()
    ensures Split(HeaderText(), ",") == CsvHeaders
  {
    assert forall p :: p in CsvHeaders ==> ',' !in p && '\n' !in p;
    JoinAvoidsChar('\n', ",", CsvHeaders);
    JoinSplit(',', CsvHeaders);
  }

  /** One line per draft: its fields separated by commas. */
  function RowLines(history: seq<DraftRecord>): (r: seq<string>)
    ensures |r| == |history|
    ensures forall i :: 0 <= i < |history| ==> r[i] == Join(",", CsvRow(history[i]))
  {
    seq(|history|, i requires 0 <= i < |history| => Join(",", CsvRow(history[i])))
  }

  /** The lines of the CSV text: the header line, then one line per draft. */
  function CsvLines(history: seq<DraftRecord>): (r: seq<string>)
    ensures |r| == |history| + 1
  {
    [HeaderText()] + RowLines(history)
  }

  function Csv(history: seq<DraftRecord>): string
  {
    Join("\n", CsvLines(history))
  }

  /** `exportDraftHistory`: CSV for "csv", otherwise the JSON text `stringify` gives. */
  function ExportDraftHistory(history: seq<DraftRecord>, format: string,
                              stringify: seq<DraftRecord> -> string): string
  {
    if format == "csv" then Csv(history) else stringify(history)
  }

  /** The CSV cells of a draft read back as the nine fields. */
  predicate PlainText(s: string)
  {
    ',' !in s && '\n' !in s
  }

  /** An ids field holds neither separator of the CSV text. */
  lemma IdsFieldPlain(ids: seq<int>)
    ensures PlainText(IdsField(ids))
  {
    var parts := seq(|ids|, i requires 0 <= i < |ids| => IntToString(ids[i]));
    forall p | p in parts ensures ',' !in p && '\n' !in p {
      var i :| 0 <= i < |parts| && parts[i] == p;
      IntToStringPlain(ids[i]);
    }
    JoinAvoidsChar(',', ";", parts);
    JoinAvoidsChar('\n', ";", parts);
  }

  /** With numbers as fields, splitting a non-empty ids field on semicolons gives back the
      numbers' texts. */
  lemma IdsFieldRoundTrip(ids: seq<int>)
    requires ids != []
    ensures Split(IdsField(ids), ";") == seq(|ids|, i requires 0 <= i < |ids| => IntToString(ids[i]))
  {
    var parts := seq(|ids|, i requires 0 <= i < |ids| => IntToString(ids[i]));
    forall p | p in parts ensures ';' !in p {
      var i :| 0 <= i < |parts| && parts[i] == p;
      IntToStringPlain(ids[i]);
    }
    JoinSplit(';', parts);
  }

  /** When no id or timestamp holds a comma or a line break, every cell of a row is plain. */
  lemma RowCellsPlain(d: DraftRecord)
    requires PlainText(d.id) && PlainText(d.timestamp)
    ensures forall cell :: cell in CsvRow(d) ==> PlainText(cell)
  {
    IdsFieldPlain(d.playerAPicks);
    IdsFieldPlain(d.playerBPicks);
    IdsFieldPlain(d.playerABans);
    IdsFieldPlain(d.playerBBans);
    IdsFieldPlain(d.finalTeamA);
    IdsFieldPlain(d.finalTeamB);
  }

  /** A draft's line holds no line break. */
  lemma RowLinePlain(d: DraftRecord)
    requires PlainText(d.id) && PlainText(d.timestamp)
    ensures '\n' !in Join(",", CsvRow(d))
  {
    RowCellsPlain(d);
    JoinAvoidsChar('\n', ",", CsvRow(d));
  }

  /** A row read back: splitting a draft's line on commas gives its nine fields in header
      order. */
  lemma CsvRowRoundTrip(d: DraftRecord)
    requires PlainText(d.id) && PlainText(d.timestamp)
    ensures Split(Join(",", CsvRow(d)), ",") == CsvRow(d)
  {
    RowCellsPlain(d);
    JoinSplit(',', CsvRow(d));
  }

  /** No line of the CSV text holds a line break. */
  lemma CsvLinesPlain(history: seq<DraftRecord>)
    requires forall d :: d in history ==> PlainText(d.id) && PlainText(d.timestamp)
    ensures forall l :: l in CsvLines(history) ==> '\n' !in l
  {
    var lines := CsvLines(history);
    HeaderPlain();
    forall k | 0 <= k < |lines| ensures '\n' !in lines[k] {
      if k > 0 {
        assert lines[k] == RowLines(history)[k - 1];
        assert history[k - 1] in history;
        RowLinePlain(history[k - 1]);
      }
    }
  }

  /** The CSV text read back: splitting it on line breaks gives the header line and then one
      line per draft, in order, and each draft's line splits into its nine fields. */
  lemma CsvRoundTrip(history: seq<DraftRecord>)
    requires forall d :: d in history ==> PlainText(d.id) && PlainText(d.timestamp)
    ensures Split(Csv(history), "\n") == CsvLines(history)
    ensures CsvLines(history)[0] == HeaderText()
    ensures forall i :: 0 <= i < |history| ==> Split(CsvLines(history)[i + 1], ",") == CsvRow(history[i])
  {
    CsvLinesPlain(history);
    JoinSplit('\n', CsvLines(history));
    forall i | 0 <= i < |history| ensures Split(CsvLines(history)[i + 1], ",") == CsvRow(history[i]) {
      assert history[i] in history;
      CsvRowRoundTrip(history[i]);
    }
  }

  /** The header names nine columns and the CSV text has as many line breaks as drafts. */
  lemma CsvLineCount(history: seq<DraftRecord>)
    requires forall d :: d in history ==> PlainText(d.id) && PlainText(d.timestamp)
    ensures |CsvHeaders| == 9
    ensures CountChar('\n', Csv(history)) == |history|
  {
    CsvLinesPlain(history);
    assert CountChar('\n', "\n") == 1;
    JoinCountsChar('\n', "\n", CsvLines(history));
  }

  /** Any format other than "csv" gives the JSON text. */
  lemma ExportFormats(history: seq<DraftRecord>, format: string, stringify: seq<DraftRecord> -> string)
    ensures format == "csv" ==> ExportDraftHistory(history, format, stringify) == Csv(history)
    ensures format != "csv" ==> ExportDraftHistory(history, format, stringify) == stringify(history)
  {
  }
}
