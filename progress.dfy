/**
 * The import's status options (total, progress, running, failed, success)
 * and the two admin entry points that read and write them: the form
 * handler that schedules an import and the AJAX progress poll.
 */
module Progress {
  import opened Php

  const DefaultPerPage: int := 400
  const DefaultSleep: int := 5
  /** The total shown before the importer has counted the file's lines. */
  const InitialTotal: int := 100

  /**
   * The five options. `failed` is false (None) or the message of the
   * exception that stopped the import.
   */
  datatype ImportStatus = ImportStatus(total: int, progress: int, running: bool, failed: Option<string>, success: bool)

  /** The options as get_option reads them when none has been written yet. */
  const Unset: ImportStatus := ImportStatus(InitialTotal, 0, false, None, false)

  /** The options table, updated in place by update_option. */
  class OptionStore {
    var total: int
    var progress: int
    var running: bool
    var failed: Option<string>
    var success: bool

    constructor()
      ensures Status() == Unset
    {
      total := InitialTotal;
      progress := 0;
      running := false;
      failed := None;
      success := false;
    }

    function Status(): ImportStatus
      reads this
    {
      ImportStatus(total, progress, running, failed, success)
    }
  }

  /** The submitted tools form, its numbers already read by intval. */
  datatype Form = Form(week: bool, fortnight: bool, perPage: Option<int>, sleep: Option<int>)

  /** The arguments of the scheduled altis_analytics_import_demo_data event. */
  datatype Scheduled = Scheduled(timeRange: int, perPage: int, sleep: int)

  /** The fortnight button wins when both are set. */
  function RequestedRange(form: Form): (r: Option<int>)
    ensures r.Some? <==> form.week || form.fortnight
    ensures r.Some? ==> r.value == (if form.fortnight then 14 else 7)
  {
    if form.fortnight then Some(14) else if form.week then Some(7) else None
  }

  /** The status handle_request writes before scheduling an import. */
  const Started: ImportStatus := ImportStatus(InitialTotal, 0, true, None, false)

  /**
   * handle_request: a form with a range, a valid nonce and no import
   * running resets the status and schedules one; anything else changes
   * nothing.
   */
  function Start(status: ImportStatus, form: Form, nonceOk: bool): (r: (ImportStatus, Option<Scheduled>))
    ensures r.1.Some? <==> RequestedRange(form).Some? && nonceOk && !status.running
    ensures r.1.None? ==> r.0 == status
    ensures r.1.Some? ==> r.0 == Started && r.0.running && !r.0.success && r.0.failed.None?
    ensures r.1.Some? ==> r.1.value.timeRange == RequestedRange(form).value
    ensures r.1.Some? ==> r.1.value.perPage == form.perPage.GetOr(DefaultPerPage)
    ensures r.1.Some? ==> r.1.value.sleep == form.sleep.GetOr(DefaultSleep)
  {
    match RequestedRange(form)
    case None => (status, None)
    case Some(range) =>
      if !nonceOk || status.running then (status, None)
      else (Started, Some(Scheduled(range, form.perPage.GetOr(DefaultPerPage), form.sleep.GetOr(DefaultSleep))))
  }

  method HandleRequest(store: OptionStore, form: Form, nonceOk: bool) returns (scheduled: Option<Scheduled>)
    modifies store
    ensures (store.Status(), scheduled) == Start(old(store.Status()), form, nonceOk)
  {
    var range: Option<int> := None;
    if form.week {
      range := Some(7);
    }
    if form.fortnight {
      range := Some(14);
    }
    if range.None? || !nonceOk || store.running {
      return None;
    }
    store.total := InitialTotal;
    store.progress := 0;
    store.running := true;
    store.failed := None;
    store.success := false;
    scheduled := Some(Scheduled(range.value, form.perPage.GetOr(DefaultPerPage), form.sleep.GetOr(DefaultSleep)));
  }

  /** A second submission while an import runs is ignored, whatever it asks for. */
  lemma {:induction false} StartWhileRunning(status: ImportStatus, form: Form, nonceOk: bool)
    requires status.running
    ensures Start(status, form, nonceOk) == (status, None)
  {
  }

  /** What the progress endpoint sends back. */
  datatype Reply = InvalidNonce | ImportFailed(message: string) | Report(total: int, progress: int)

  /**
   * ajax_get_progress: a truthy failure message stops the import's running
   * flag and is reported; otherwise a progress that has reached the total
   * marks the import successful.
   */
  function Poll(status: ImportStatus, nonceOk: bool): (r: (ImportStatus, Reply))
    ensures !nonceOk ==> r == (status, InvalidNonce)
    ensures nonceOk && Truthy(status.failed) ==> r == (status.(running := false), ImportFailed(status.failed.value))
    ensures nonceOk && !Truthy(status.failed) ==> r.1 == Report(status.total, status.progress)
    ensures nonceOk && !Truthy(status.failed) && status.progress >= status.total
      ==> r.0 == status.(running := false, failed := None, success := true)
    ensures nonceOk && !Truthy(status.failed) && status.progress < status.total ==> r.0 == status
  {
    if !nonceOk then (status, InvalidNonce)
    else if Truthy(status.failed) then (status.(running := false), ImportFailed(status.failed.value))
    else if status.progress >= status.total then
      (status.(running := false, failed := None, success := true), Report(status.total, status.progress))
    else (status, Report(status.total, status.progress))
  }

  method AjaxGetProgress(store: OptionStore, nonceOk: bool) returns (reply: Reply)
    modifies store
    ensures (store.Status(), reply) == Poll(old(store.Status()), nonceOk)
  {
    if !nonceOk {
      return InvalidNonce;
    }
    var total := store.total;
    var progress := store.progress;
    var failed := store.failed;
    if Truthy(failed) {
      store.running := false;
      return ImportFailed(failed.value);
    }
    if progress >= total {
      store.running := false;
      store.failed := None;
      store.success := true;
    }
    reply := Report(total, progress);
  }

  /** Polling again changes nothing more: the poll's effect on the options is idempotent. */
  lemma {:induction false} PollIdempotent(status: ImportStatus, nonceOk: bool)
    ensures Poll(Poll(status, nonceOk).0, nonceOk).0 == Poll(status, nonceOk).0
  {
  }

  /**
   * A poll never clears a success flag, and never sets one while a truthy
   * failure is recorded; a failure of "" or "0" does not stop it.
   */
  lemma {:induction false} PollSuccess(status: ImportStatus, nonceOk: bool)
    ensures status.success ==> Poll(status, nonceOk).0.success
    ensures Poll(status, nonceOk).0.success && !status.success ==> !Truthy(status.failed) && status.progress >= status.total
  {
  }
}
