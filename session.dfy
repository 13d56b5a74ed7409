/** The monitor's mutable state and the operations on it: the three
    watchdog handlers that append to the event buffer, one pass of the
    periodic report loop, and the two menu selections. */
module Monitor {
  import opened Wrappers
  import opened Paths
  import opened Events
  import opened Reports

  /** How one pass of the report loop ended. */
  datatype FlushOutcome =
    | Wrote       // the merged report was written and the buffer cleared
    | Idle        // nothing to flush, or no report location chosen
    | Raised      // reading or writing the report raised; the loop ends
    | NotRunning  // the loop is not running, so there is no pass at all

  /** The report thread: not started before `main` has checked both
      settings, running, or ended by an exception that escaped its loop. */
  datatype ReporterState = NotStarted | Running | Ended

  /** A report location counts as chosen when it is set and non-empty. */
  predicate IsChosen(name: Option<string>) {
    name.Some? && name.value != ""
  }

  class Session {
    /** `event_list`: records waiting for the next flush, in arrival order. */
    var buffer: seq<Event>
    /** The report files on disk, by path, as rows. */
    var reports: map<string, seq<Event>>
    /** `REPORT_NAME`. */
    var reportName: Option<string>
    /** `MONITORED_DIR`. */
    var monitoredDir: Option<string>
    /** The state of the report thread. */
    var reporter: ReporterState

    /** Once `main` has started the report thread, both settings are
        chosen; a selection can only replace them with non-empty ones. */
    predicate Valid()
      reads this
    {
      reporter != NotStarted ==> IsChosen(reportName) && IsChosen(monitoredDir)
    }

    /** The report at the chosen location, if that file exists. */
    function Report(): Option<seq<Event>>
      reads this
    {
      if reportName.Some? && reportName.value in reports
      then Some(reports[reportName.value]) else None
    }

    /** The state at start-up: nothing buffered or chosen, the report
        thread not started, and whatever report files already exist. */
    constructor (disk: map<string, seq<Event>>)
      ensures Valid()
      ensures buffer == [] && reports == disk
      ensures reportName == None && monitoredDir == None && reporter == NotStarted
    {
      buffer := [];
      reports := disk;
      reportName := None;
      monitoredDir := None;
      reporter := NotStarted;
    }

    /** The rest of `main` after the two start-up selections: without both
        settings it returns; otherwise it starts the report thread. */
    method Start() returns (started: bool)
      requires Valid() && reporter == NotStarted
      modifies this
      ensures Valid()
      ensures started == (IsChosen(monitoredDir) && IsChosen(reportName))
      ensures reporter == if started then Running else NotStarted
      ensures buffer == old(buffer) && reports == old(reports)
      ensures reportName == old(reportName) && monitoredDir == old(monitoredDir)
    {
      if !IsChosen(monitoredDir) || !IsChosen(reportName) {
        return false;
      }
      reporter := Running;
      started := true;
    }

    /** `on_created`: a file's size and owner are looked up; when either
        lookup raises nothing is appended. */
    method OnCreated(n: Notification, now: string, sizeLookup: Option<nat>, ownerLookup: Option<string>)
      requires Valid()
      modifies this
      ensures Valid()
      ensures buffer == old(buffer) + Emitted(Normalize(Created, n, now, sizeLookup, ownerLookup))
      ensures reports == old(reports) && reportName == old(reportName)
      ensures monitoredDir == old(monitoredDir) && reporter == old(reporter)
    {
      if !n.isDirectory {
        var filepath := n.srcPath;
        var filename := Basename(filepath);
        if sizeLookup.None? { return; }
        var fileSize := Measured(sizeLookup.value);
        if ownerLookup.None? { return; }
        var fileOwner := ownerLookup.value;
        var eventInfo := Event(now, fileOwner, Created, filename, filepath, fileSize);
        buffer := buffer + [eventInfo];
      }
    }

    /** `on_modified`: the same as `on_created` with the label 'Modificado'. */
    method OnModified(n: Notification, now: string, sizeLookup: Option<nat>, ownerLookup: Option<string>)
      requires Valid()
      modifies this
      ensures Valid()
      ensures buffer == old(buffer) + Emitted(Normalize(Modified, n, now, sizeLookup, ownerLookup))
      ensures reports == old(reports) && reportName == old(reportName)
      ensures monitoredDir == old(monitoredDir) && reporter == old(reporter)
    {
      if !n.isDirectory {
        var filepath := n.srcPath;
        var filename := Basename(filepath);
        if sizeLookup.None? { return; }
        var fileSize := Measured(sizeLookup.value);
        if ownerLookup.None? { return; }
        var fileOwner := ownerLookup.value;
        var eventInfo := Event(now, fileOwner, Modified, filename, filepath, fileSize);
        buffer := buffer + [eventInfo];
      }
    }

    /** `on_deleted`: no lookup is made; the owner is the sentinel and the
        size is 'N/A', so every file notification is appended. */
    method OnDeleted(n: Notification, now: string)
      requires Valid()
      modifies this
      ensures Valid()
      ensures buffer == old(buffer) + Emitted(Normalize(Deleted, n, now, None, None))
      ensures !n.isDirectory ==> |buffer| == |old(buffer)| + 1
      ensures reports == old(reports) && reportName == old(reportName)
      ensures monitoredDir == old(monitoredDir) && reporter == old(reporter)
    {
      if !n.isDirectory {
        var filepath := n.srcPath;
        var filename := Basename(filepath);
        var fileOwner := UnknownOwner;
        var eventInfo := Event(now, fileOwner, Deleted, filename, filepath, NotAvailable);
        buffer := buffer + [eventInfo];
      }
    }

    /** One pass of the body of the `schedule_report` loop, after its sleep.
        `readable` says whether reading the existing report succeeds and
        `writable` whether writing the merged report succeeds. There is no
        exception handler around the pass, so a failure ends the loop:
        later passes do nothing. The buffer is cleared only after a
        successful write, so every record is either still buffered or in
        the report, exactly once. */
    method FlushStep(readable: bool, writable: bool) returns (outcome: FlushOutcome)
      requires Valid()
      modifies this
      ensures Valid()
      ensures reportName == old(reportName) && monitoredDir == old(monitoredDir)
      ensures Report().GetOr([]) + buffer == old(Report().GetOr([]) + buffer)
      ensures old(reporter) != Running ==>
                outcome == NotRunning && buffer == old(buffer) && reports == old(reports) &&
                reporter == old(reporter)
      ensures old(reporter) == Running && (old(buffer) == [] || !IsChosen(reportName)) ==>
                outcome == Idle && buffer == old(buffer) && reports == old(reports) && reporter == Running
      ensures old(reporter) == Running && old(buffer) != [] && IsChosen(reportName) ==>
                var failed := (old(Report()).Some? && !readable) || !writable;
                if failed then
                  outcome == Raised && buffer == old(buffer) && reports == old(reports) && reporter == Ended
                else
                  outcome == Wrote && buffer == [] && reporter == Running &&
                  reports == old(reports)[reportName.value := Merge(old(Report()), old(buffer))] &&
                  Report() == Flushed(old(Report()), old(buffer))
      ensures outcome == Idle ==> old(buffer) == []
    {
      if reporter != Running {
        return NotRunning;
      }
      if buffer != [] && IsChosen(reportName) {
        var name := reportName.value;
        var combined: seq<Event>;
        if name in reports {
          if !readable {
            reporter := Ended;
            return Raised;
          }
          var existing := reports[name];
          combined := existing + buffer;
        } else {
          combined := buffer;
        }
        if !writable {
          reporter := Ended;
          return Raised;
        }
        reports := reports[name := combined];
        buffer := [];
        outcome := Wrote;
      } else {
        outcome := Idle;
      }
    }

    /** `select_monitored_dir`: a non-empty selection replaces the watched
        directory; a cancelled (empty) one leaves it. */
    method SelectMonitoredDir(selection: string)
      requires Valid()
      modifies this
      ensures Valid()
      ensures monitoredDir == if selection != "" then Some(selection) else old(monitoredDir)
      ensures buffer == old(buffer) && reports == old(reports)
      ensures reportName == old(reportName) && reporter == old(reporter)
    {
      if selection != "" {
        monitoredDir := Some(selection);
      }
    }

    /** `select_report_location`: a non-empty selection replaces the report
        location; a cancelled (empty) one leaves it. */
    method SelectReportLocation(selection: string)
      requires Valid()
      modifies this
      ensures Valid()
      ensures reportName == if selection != "" then Some(selection) else old(reportName)
      ensures buffer == old(buffer) && reports == old(reports)
      ensures monitoredDir == old(monitoredDir) && reporter == old(reporter)
    {
      if selection != "" {
        reportName := Some(selection);
      }
    }
  }
}
