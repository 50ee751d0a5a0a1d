/** The printer slice of the Redux store: the known printers, the connection
    to one of them, its print jobs and its health. Each reducer and each
    pending/fulfilled/rejected handler of the async thunks is a method of
    `Slice`; the thunks' network calls are not modelled, their payload is the
    method's argument. */
module PrinterSlice {
  import opened Types
  import opened Seqs

  datatype ConnectionStatus = Connecting | Connected | Disconnected | ConnectionError

  datatype PrinterHealth = PrinterHealth(
    isOnline: bool,
    hasPaper: bool,
    hasInk: bool,
    errorCount: int,
    lastMaintenance: Option<Timestamp>)

  /** A `Partial<PrinterHealth>` payload: `None` is a key the payload lacks. */
  datatype HealthPatch = HealthPatch(
    isOnline: Option<bool>,
    hasPaper: Option<bool>,
    hasInk: Option<bool>,
    errorCount: Option<int>,
    lastMaintenance: Option<Option<Timestamp>>)

  datatype PrinterState = PrinterState(
    printers: seq<Printer>,
    selectedPrinter: Option<Printer>,
    isConnected: bool,
    isLoading: bool,
    error: Option<string>,
    connectionStatus: ConnectionStatus,
    printJobs: seq<PrintJob>,
    currentJob: Option<PrintJob>,
    printerHealth: PrinterHealth)

  const InitialHealth := PrinterHealth(false, true, true, 0, None)

  const InitialState := PrinterState([], None, false, false, None, Disconnected, [], None, InitialHealth)

  // ------------------------------------------------------ list updates

  function HasJobId(id: string): PrintJob -> bool {
    (j: PrintJob) => j.id == id
  }

  function LacksJobId(id: string): PrintJob -> bool {
    (j: PrintJob) => j.id != id
  }

  function WithJobStatus(status: PrintJobStatus): PrintJob -> PrintJob {
    (j: PrintJob) => j.(status := status)
  }

  /** `{...health, ...patch}`: the keys present in the patch win. */
  function MergeHealth(h: PrinterHealth, p: HealthPatch): (r: PrinterHealth)
    ensures p == HealthPatch(None, None, None, None, None) ==> r == h
    ensures p.isOnline.Some? ==> r.isOnline == p.isOnline.value
    ensures p.isOnline.None? ==> r.isOnline == h.isOnline
    ensures p.hasPaper.Some? ==> r.hasPaper == p.hasPaper.value
    ensures p.hasPaper.None? ==> r.hasPaper == h.hasPaper
    ensures p.hasInk.Some? ==> r.hasInk == p.hasInk.value
    ensures p.hasInk.None? ==> r.hasInk == h.hasInk
    ensures p.errorCount.Some? ==> r.errorCount == p.errorCount.value
    ensures p.errorCount.None? ==> r.errorCount == h.errorCount
    ensures p.lastMaintenance.Some? ==> r.lastMaintenance == p.lastMaintenance.value
    ensures p.lastMaintenance.None? ==> r.lastMaintenance == h.lastMaintenance
  {
    PrinterHealth(
      if p.isOnline.Some? then p.isOnline.value else h.isOnline,
      if p.hasPaper.Some? then p.hasPaper.value else h.hasPaper,
      if p.hasInk.Some? then p.hasInk.value else h.hasInk,
      if p.errorCount.Some? then p.errorCount.value else h.errorCount,
      if p.lastMaintenance.Some? then p.lastMaintenance.value else h.lastMaintenance)
  }

  /** Merging a patch twice is merging it once. */
  lemma MergeHealthIdempotent(h: PrinterHealth, p: HealthPatch)
    ensures MergeHealth(MergeHealth(h, p), p) == MergeHealth(h, p)
  {
  }

  /** The job list after `find(j => j.id === jobId)` had its status set. */
  function SetJobStatus(jobs: seq<PrintJob>, jobId: string, status: PrintJobStatus): (r: seq<PrintJob>)
    ensures |r| == |jobs|
    ensures forall k :: 0 <= k < |jobs| ==> r[k].id == jobs[k].id
  {
    UpdateFirst(jobs, HasJobId(jobId), WithJobStatus(status))
  }

  /** Only the first job carrying the id changes, and only in its status;
      an unknown id leaves the list as it was. */
  lemma SetJobStatusChangesFirstMatchOnly(jobs: seq<PrintJob>, jobId: string, status: PrintJobStatus)
    ensures var r := SetJobStatus(jobs, jobId, status);
      var i := FindIndex(jobs, HasJobId(jobId));
      && (i == -1 ==> r == jobs)
      && (i != -1 ==> r[i] == jobs[i].(status := status) && r[i].status == status)
      && (forall k :: 0 <= k < |jobs| && k != i ==> r[k] == jobs[k])
  {
  }

  /** `currentJob` after a status change addressed to `jobId`. */
  function SetCurrentJobStatus(current: Option<PrintJob>, jobId: string, status: PrintJobStatus): (r: Option<PrintJob>)
    ensures r.Some? <==> current.Some?
    ensures r.Some? && current.value.id == jobId ==> r.value.status == status
    ensures current.Some? && current.value.id != jobId ==> r == current
  {
    if current.Some? && current.value.id == jobId then Some(current.value.(status := status)) else current
  }

  /** The job list without the jobs carrying `jobId`. */
  function RemoveJobs(jobs: seq<PrintJob>, jobId: string): (r: seq<PrintJob>)
    ensures forall k :: 0 <= k < |r| ==> r[k].id != jobId
  {
    Filter(jobs, LacksJobId(jobId))
  }

  /** Removing keeps the other jobs in their order, and removing an id no
      job has changes nothing. */
  lemma {:induction false} RemoveJobsKeepsOthers(jobs: seq<PrintJob>, jobId: string)
    ensures IsSubsequence(RemoveJobs(jobs, jobId), jobs)
    ensures forall k :: 0 <= k < |jobs| && jobs[k].id != jobId ==> jobs[k] in RemoveJobs(jobs, jobId)
    ensures (forall k :: 0 <= k < |jobs| ==> jobs[k].id != jobId) ==> RemoveJobs(jobs, jobId) == jobs
  {
    FilterIsSubsequence(jobs, LacksJobId(jobId));
    if forall k :: 0 <= k < |jobs| ==> jobs[k].id != jobId {
      FilterAllPass(jobs, LacksJobId(jobId));
    }
  }

  /** `currentJob` after removing `jobId`. */
  function ClearCurrentIf(current: Option<PrintJob>, jobId: string): (r: Option<PrintJob>)
    ensures r.None? <==> current.None? || current.value.id == jobId
    ensures r.Some? ==> r == current
  {
    if current.Some? && current.value.id == jobId then None else current
  }

  /** `jobs.find(job => job.status === 'printing') || null`. */
  function FirstPrinting(jobs: seq<PrintJob>): (r: Option<PrintJob>)
    ensures r.None? <==> forall k :: 0 <= k < |jobs| ==> jobs[k].status != PrintingJob
    ensures r.Some? ==> exists k :: 0 <= k < |jobs| && jobs[k] == r.value && r.value.status == PrintingJob
                                    && forall m :: 0 <= m < k ==> jobs[m].status != PrintingJob
  {
    var i := FindIndex(jobs, (j: PrintJob) => j.status == PrintingJob);
    if i == -1 then None else Some(jobs[i])
  }

  /** The printer list after `updatePrinterStatus`. */
  function SetPrinterStatus(printers: seq<Printer>, printerId: string, status: PrinterStatus): (r: seq<Printer>)
    ensures |r| == |printers|
    ensures forall k :: 0 <= k < |printers| ==> r[k].id == printers[k].id
    ensures var i := FindIndex(printers, (p: Printer) => p.id == printerId);
      && (i != -1 ==> r[i] == printers[i].(status := status))
      && (forall k :: 0 <= k < |printers| && k != i ==> r[k] == printers[k])
  {
    UpdateFirst(printers, (p: Printer) => p.id == printerId, (p: Printer) => p.(status := status))
  }

  /** The printer list after `updatePrinterSettings.fulfilled`: the first
      printer with the payload's id is replaced by the payload. */
  function ReplacePrinter(printers: seq<Printer>, updated: Printer): (r: seq<Printer>)
    ensures |r| == |printers|
    ensures var i := FindIndex(printers, (p: Printer) => p.id == updated.id);
      && (i != -1 ==> r[i] == updated)
      && (forall k :: 0 <= k < |printers| && k != i ==> r[k] == printers[k])
  {
    UpdateFirst(printers, (p: Printer) => p.id == updated.id, (p: Printer) => updated)
  }

  // ------------------------------------------------------ selectors

  predicate IsActiveJob(j: PrintJob) {
    j.status == Queued || j.status == Processing || j.status == PrintingJob
  }

  function ActivePrintJobs(s: PrinterState): (r: seq<PrintJob>)
    ensures forall k :: 0 <= k < |r| ==> IsActiveJob(r[k])
  {
    Filter(s.printJobs, (j: PrintJob) => IsActiveJob(j))
  }

  function CompletedPrintJobs(s: PrinterState): (r: seq<PrintJob>)
    ensures forall k :: 0 <= k < |r| ==> r[k].status == Completed
  {
    Filter(s.printJobs, (j: PrintJob) => j.status == Completed)
  }

  function FailedPrintJobs(s: PrinterState): (r: seq<PrintJob>)
    ensures forall k :: 0 <= k < |r| ==> r[k].status == Failed
  {
    Filter(s.printJobs, (j: PrintJob) => j.status == Failed)
  }

  function CancelledPrintJobs(jobs: seq<PrintJob>): (r: seq<PrintJob>)
    ensures forall k :: 0 <= k < |r| ==> r[k].status == Cancelled
  {
    Filter(jobs, (j: PrintJob) => j.status == Cancelled)
  }

  lemma {:induction false} JobCountsAddUp(jobs: seq<PrintJob>)
    ensures |Filter(jobs, (j: PrintJob) => IsActiveJob(j))| + |Filter(jobs, (j: PrintJob) => j.status == Completed)|
          + |Filter(jobs, (j: PrintJob) => j.status == Failed)| + |CancelledPrintJobs(jobs)| == |jobs|
  {
    if jobs != [] {
      JobCountsAddUp(jobs[1..]);
    }
  }

  /** The active, completed and failed selectors are order-preserving
      sublists of the job list which, with the cancelled jobs, count every
      job exactly once. */
  lemma JobSelectorsPartition(s: PrinterState)
    ensures IsSubsequence(ActivePrintJobs(s), s.printJobs)
    ensures IsSubsequence(CompletedPrintJobs(s), s.printJobs)
    ensures IsSubsequence(FailedPrintJobs(s), s.printJobs)
    ensures |ActivePrintJobs(s)| + |CompletedPrintJobs(s)| + |FailedPrintJobs(s)|
          + |CancelledPrintJobs(s.printJobs)| == |s.printJobs|
  {
    FilterIsSubsequence(s.printJobs, (j: PrintJob) => IsActiveJob(j));
    FilterIsSubsequence(s.printJobs, (j: PrintJob) => j.status == Completed);
    FilterIsSubsequence(s.printJobs, (j: PrintJob) => j.status == Failed);
    JobCountsAddUp(s.printJobs);
  }

  /** No job is returned by two of the selectors, and a cancelled job is
      returned by none. */
  lemma JobSelectorsDisjoint(s: PrinterState)
    ensures var a, c, f := ActivePrintJobs(s), CompletedPrintJobs(s), FailedPrintJobs(s);
      && (forall i, k :: 0 <= i < |a| && 0 <= k < |c| ==> a[i] != c[k])
      && (forall i, k :: 0 <= i < |a| && 0 <= k < |f| ==> a[i] != f[k])
      && (forall i, k :: 0 <= i < |c| && 0 <= k < |f| ==> c[i] != f[k])
      && (forall j :: j in a + c + f ==> j.status != Cancelled)
  {
  }

  function OnlinePrinters(s: PrinterState): (r: seq<Printer>)
    ensures forall k :: 0 <= k < |r| ==> r[k].status == Online
    ensures forall k :: 0 <= k < |s.printers| && s.printers[k].status == Online ==> s.printers[k] in r
  {
    Filter(s.printers, (p: Printer) => p.status == Online)
  }

  /** Online printers, provided the slice's single health record reports
      the printer online with paper and ink. */
  function AvailablePrinters(s: PrinterState): (r: seq<Printer>)
    ensures forall k :: 0 <= k < |r| ==> r[k].status == Online
  {
    Filter(s.printers, (p: Printer) =>
      p.status == Online && s.printerHealth.isOnline && s.printerHealth.hasPaper && s.printerHealth.hasInk)
  }

  /** The health record is shared by all printers, so the available printers
      are either all online printers or none. */
  lemma {:induction false} AvailableIsAllOrNothing(s: PrinterState)
    ensures var h := s.printerHealth;
      AvailablePrinters(s) == if h.isOnline && h.hasPaper && h.hasInk then OnlinePrinters(s) else []
  {
    AvailableMatchesOnline(s.printers, s.printerHealth);
  }

  lemma {:induction false} AvailableMatchesOnline(printers: seq<Printer>, h: PrinterHealth)
    ensures Filter(printers, (p: Printer) => p.status == Online && h.isOnline && h.hasPaper && h.hasInk)
         == if h.isOnline && h.hasPaper && h.hasInk then Filter(printers, (p: Printer) => p.status == Online) else []
  {
    if printers != [] {
      AvailableMatchesOnline(printers[1..], h);
    }
  }

  // ------------------------------------------------------ the slice

  class Slice {
    var printers: seq<Printer>
    var selectedPrinter: Option<Printer>
    var isConnected: bool
    var isLoading: bool
    var error: Option<string>
    var connectionStatus: ConnectionStatus
    var printJobs: seq<PrintJob>
    var currentJob: Option<PrintJob>
    var printerHealth: PrinterHealth

    function State(): PrinterState
      reads this
    {
      PrinterState(printers, selectedPrinter, isConnected, isLoading, error,
                   connectionStatus, printJobs, currentJob, printerHealth)
    }

    constructor ()
      ensures State() == InitialState
    {
      printers := [];
      selectedPrinter := None;
      isConnected := false;
      isLoading := false;
      error := None;
      connectionStatus := Disconnected;
      printJobs := [];
      currentJob := None;
      printerHealth := InitialHealth;
    }

    method SetSelectedPrinter(printer: Option<Printer>)
      modifies this
      ensures State() == old(State()).(selectedPrinter := printer)
    {
      selectedPrinter := printer;
    }

    /** Stores the status; the connection flag is set exactly when the new
        status is `connected`. */
    method SetConnectionStatus(status: ConnectionStatus)
      modifies this
      ensures State() == old(State()).(connectionStatus := status, isConnected := status == Connected)
      ensures isConnected <==> connectionStatus == Connected
    {
      connectionStatus := status;
      isConnected := status == Connected;
    }

    method UpdatePrinterStatus(printerId: string, status: PrinterStatus)
      modifies this
      ensures State() == old(State()).(printers := SetPrinterStatus(old(printers), printerId, status))
    {
      printers := SetPrinterStatus(printers, printerId, status);
    }

    method UpdatePrintJobStatus(jobId: string, status: PrintJobStatus)
      modifies this
      ensures State() == old(State()).(printJobs := SetJobStatus(old(printJobs), jobId, status),
                                       currentJob := SetCurrentJobStatus(old(currentJob), jobId, status))
    {
      printJobs := SetJobStatus(printJobs, jobId, status);
      currentJob := SetCurrentJobStatus(currentJob, jobId, status);
    }

    method UpdatePrinterHealth(patch: HealthPatch)
      modifies this
      ensures State() == old(State()).(printerHealth := MergeHealth(old(printerHealth), patch))
    {
      printerHealth := MergeHealth(printerHealth, patch);
    }

    method SetPrinterLoading(loading: bool)
      modifies this
      ensures State() == old(State()).(isLoading := loading)
    {
      isLoading := loading;
    }

    method SetPrinterError(message: Option<string>)
      modifies this
      ensures State() == old(State()).(error := message)
    {
      error := message;
    }

    /** Resets the connection, the jobs and the health; the printer list,
        the loading flag and the error stay. */
    method ClearPrinterState()
      modifies this
      ensures State() == InitialState.(printers := old(printers), isLoading := old(isLoading), error := old(error))
    {
      selectedPrinter := None;
      isConnected := false;
      connectionStatus := Disconnected;
      printJobs := [];
      currentJob := None;
      printerHealth := InitialHealth;
    }

    method AddPrintJob(job: PrintJob)
      modifies this
      ensures State() == old(State()).(printJobs := [job] + old(printJobs))
    {
      printJobs := [job] + printJobs;
    }

    method RemovePrintJob(jobId: string)
      modifies this
      ensures State() == old(State()).(printJobs := RemoveJobs(old(printJobs), jobId),
                                       currentJob := ClearCurrentIf(old(currentJob), jobId))
    {
      printJobs := RemoveJobs(printJobs, jobId);
      currentJob := ClearCurrentIf(currentJob, jobId);
    }

    method SetCurrentJob(job: Option<PrintJob>)
      modifies this
      ensures State() == old(State()).(currentJob := job)
    {
      currentJob := job;
    }

    /** The pending handler shared by fetchPrinters, disconnectFromPrinter,
        sendPrintJob, fetchPrintQueue, cancelPrintJob and
        updatePrinterSettings. */
    method RequestPending()
      modifies this
      ensures State() == old(State()).(isLoading := true, error := None)
    {
      isLoading := true;
      error := None;
    }

    /** The rejected handler shared by the same six thunks: the rejection
        message becomes the error. */
    method RequestRejected(message: string)
      modifies this
      ensures State() == old(State()).(isLoading := false, error := Some(message))
    {
      isLoading := false;
      error := Some(message);
    }

    method FetchPrintersFulfilled(payload: seq<Printer>)
      modifies this
      ensures State() == old(State()).(isLoading := false, printers := payload, error := None)
    {
      isLoading := false;
      printers := payload;
      error := None;
    }

    method ConnectToPrinterPending()
      modifies this
      ensures State() == old(State()).(isLoading := true, connectionStatus := Connecting, error := None)
    {
      isLoading := true;
      connectionStatus := Connecting;
      error := None;
    }

    method ConnectToPrinterFulfilled(printer: Printer)
      modifies this
      ensures State() == old(State()).(isLoading := false, connectionStatus := Connected, isConnected := true,
                                       selectedPrinter := Some(printer), error := None)
    {
      isLoading := false;
      connectionStatus := Connected;
      isConnected := true;
      selectedPrinter := Some(printer);
      error := None;
    }

    method ConnectToPrinterRejected(message: string)
      modifies this
      ensures State() == old(State()).(isLoading := false, connectionStatus := ConnectionError,
                                       isConnected := false, error := Some(message))
    {
      isLoading := false;
      connectionStatus := ConnectionError;
      isConnected := false;
      error := Some(message);
    }

    method DisconnectFromPrinterFulfilled()
      modifies this
      ensures State() == old(State()).(isLoading := false, connectionStatus := Disconnected, isConnected := false,
                                       selectedPrinter := None, error := None)
    {
      isLoading := false;
      connectionStatus := Disconnected;
      isConnected := false;
      selectedPrinter := None;
      error := None;
    }

    /** The sent job goes to the front of the list and becomes current. */
    method SendPrintJobFulfilled(job: PrintJob)
      modifies this
      ensures State() == old(State()).(isLoading := false, printJobs := [job] + old(printJobs),
                                       currentJob := Some(job), error := None)
    {
      isLoading := false;
      printJobs := [job] + printJobs;
      currentJob := Some(job);
      error := None;
    }

    /** The fetched queue replaces the job list; the current job becomes
        its first job in the `printing` state, if any. */
    method FetchPrintQueueFulfilled(jobs: seq<PrintJob>)
      modifies this
      ensures State() == old(State()).(isLoading := false, printJobs := jobs, currentJob := FirstPrinting(jobs),
                                       error := None)
    {
      isLoading := false;
      printJobs := jobs;
      currentJob := FirstPrinting(jobs);
      error := None;
    }

    method CancelPrintJobFulfilled(jobId: string)
      modifies this
      ensures State() == old(State()).(isLoading := false,
                                       printJobs := SetJobStatus(old(printJobs), jobId, Cancelled),
                                       currentJob := SetCurrentJobStatus(old(currentJob), jobId, Cancelled),
                                       error := None)
    {
      isLoading := false;
      printJobs := SetJobStatus(printJobs, jobId, Cancelled);
      currentJob := SetCurrentJobStatus(currentJob, jobId, Cancelled);
      error := None;
    }

    method UpdatePrinterSettingsFulfilled(updated: Printer)
      modifies this
      ensures State() == old(State()).(isLoading := false, printers := ReplacePrinter(old(printers), updated),
                                       selectedPrinter := if old(selectedPrinter).Some? && old(selectedPrinter).value.id == updated.id
                                                          then Some(updated) else old(selectedPrinter),
                                       error := None)
    {
      isLoading := false;
      printers := ReplacePrinter(printers, updated);
      if selectedPrinter.Some? && selectedPrinter.value.id == updated.id {
        selectedPrinter := Some(updated);
      }
      error := None;
    }
  }
}
