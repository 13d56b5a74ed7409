/** Sessions driven through the handlers and the report loop from start-up,
    as the tray application would drive them. */
module Scenarios {
  import opened Wrappers
  import opened Paths
  import opened Events
  import opened Reports
  import opened Monitor

  const Dir: string := "C:\\dados"
  const FilePath: string := "C:\\dados\\a.txt"
  const ReportPath: string := "C:\\relatorios\\eventos.xlsx"
  const Owner: string := "EMPRESA\\alice"

  lemma FileNameOfFilePath()
    ensures Basename(FilePath) == "a.txt"
  {
    BasenameUnique(FilePath, 9);
  }

  const CreatedRow: Event :=
    Event("2024-05-02 09:00:00", Owner, Created, "a.txt", FilePath, Measured(10))
  const DeletedRow: Event :=
    Event("2024-05-02 09:05:00", UnknownOwner, Deleted, "a.txt", FilePath, NotAvailable)

  /** A 10-byte file is created by alice and flushed into a new report;
      then it is deleted and flushed again. The report holds the creation
      row and, after it and unchanged by the second flush, the deletion row
      with the unknown owner and no size. */
  method CreateThenDelete() returns (report: Option<seq<Event>>)
    ensures report == Some([
      Event("2024-05-02 09:00:00", Owner, Created, "a.txt", FilePath, Measured(10)),
      Event("2024-05-02 09:05:00", UnknownOwner, Deleted, "a.txt", FilePath, NotAvailable)])
  {
    var s := new Session(map[]);
    s.SelectMonitoredDir(Dir);
    s.SelectReportLocation(ReportPath);
    var started := s.Start();
    CreateAndFlush(s);
    DeleteAndFlush(s);
    assert [CreatedRow] + [DeletedRow] == [CreatedRow, DeletedRow];
    report := s.Report();
  }

  /** The first half of `CreateThenDelete`: the creation is buffered and
      written into a report that did not exist. */
  method CreateAndFlush(s: Session)
    requires s.Valid() && s.reporter == Running
    requires s.buffer == [] && s.Report() == None
    modifies s
    ensures s.Valid() && s.reporter == Running && s.reportName == old(s.reportName)
    ensures s.buffer == [] && s.Report() == Some([CreatedRow])
  {
    FileNameOfFilePath();
    s.OnCreated(Notification(FilePath, false), "2024-05-02 09:00:00", Some(10), Some(Owner));
    assert s.buffer == [CreatedRow];
    var outcome := s.FlushStep(true, true);
  }

  /** The second half of `CreateThenDelete`: the deletion is buffered and
      appended after the existing rows. */
  method DeleteAndFlush(s: Session)
    requires s.Valid() && s.reporter == Running
    requires s.buffer == [] && s.Report() == Some([CreatedRow])
    modifies s
    ensures s.Report() == Some([CreatedRow] + [DeletedRow])
  {
    FileNameOfFilePath();
    s.OnDeleted(Notification(FilePath, false), "2024-05-02 09:05:00");
    assert s.buffer == [DeletedRow];
    var outcome := s.FlushStep(true, true);
  }

  /** A write that raises keeps the buffered record and ends the report
      loop: the next pass does nothing, so the record is never written and
      no report file appears. */
  method WriteFailureKeepsBuffer() returns (outcomes: seq<FlushOutcome>, buffered: nat, report: Option<seq<Event>>)
    ensures outcomes == [Raised, NotRunning]
    ensures buffered == 1
    ensures report == None
  {
    var s := new Session(map[]);
    s.SelectMonitoredDir(Dir);
    s.SelectReportLocation(ReportPath);
    var started := s.Start();
    s.OnDeleted(Notification(FilePath, false), "2024-05-02 09:00:00");
    var first := s.FlushStep(true, false);
    var second := s.FlushStep(true, true);
    outcomes := [first, second];
    buffered := |s.buffer|;
    report := s.Report();
  }

  /** Directory notifications and a file whose owner cannot be read are
      dropped, so the pass that follows finds nothing to flush and is idle. */
  method NothingToFlush() returns (outcome: FlushOutcome, buffered: nat)
    ensures outcome == Idle
    ensures buffered == 0
  {
    var s := new Session(map[]);
    s.SelectMonitoredDir(Dir);
    s.SelectReportLocation(ReportPath);
    var started := s.Start();
    s.OnCreated(Notification(Dir, true), "2024-05-02 09:00:00", Some(0), Some(Owner));
    s.OnDeleted(Notification(Dir, true), "2024-05-02 09:00:01");
    s.OnModified(Notification(FilePath, false), "2024-05-02 09:00:02", Some(10), None);
    outcome := s.FlushStep(true, true);
    buffered := |s.buffer|;
  }

  /** A report selection cancelled at start-up makes `main` return without
      starting the report thread, even though a folder was chosen. */
  method CancelledStartup() returns (started: bool)
    ensures !started
  {
    var s := new Session(map[]);
    s.SelectMonitoredDir(Dir);
    s.SelectReportLocation("");
    started := s.Start();
  }
}
