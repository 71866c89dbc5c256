/** One item of an array field (components/templates/ArrayFieldItemTemplateCustom.tsx): its
    toolbar, and for a "GreenApiData" item the WhatsApp instance creation, whose background task
    is polled every 2 seconds until it reports SUCCESS or PENDING. */
module InstanceBinding {
  import opened Common

  /** The part of the item's state the poller reads and writes. */
  datatype Watch = Watch(dialogOpen: bool, taskId: Option<string>)

  /** A poll answer that ends the watch: a resolved status of SUCCESS or of PENDING. Any other
      status (FAILURE included) and any rejected request keep it going. */
  predicate EndsWatch(response: Outcome<string>) {
    response.Resolved? && (response.value == "SUCCESS" || response.value == "PENDING")
  }

  /** The interval callback: an ending answer closes the dialog and forgets the task; anything
      else changes nothing. */
  function PollStep(w: Watch, response: Outcome<string>): (r: Watch)
    ensures EndsWatch(response) ==> r == Watch(false, None)
    ensures !EndsWatch(response) ==> r == w
  {
    if EndsWatch(response) then Watch(false, None) else w
  }

  /** A poll never reopens a closed dialog nor brings back a task, and it stops the interval
      (the task id turns falsy) exactly when the answer ends the watch or no task was watched. */
  lemma PollStepNeverReopens(w: Watch, response: Outcome<string>)
    ensures var r := PollStep(w, response);
            && (!w.dialogOpen ==> !r.dialogOpen)
            && (r.taskId.Some? ==> r.taskId == w.taskId)
            && (!TruthyText(r.taskId) <==> EndsWatch(response) || !TruthyText(w.taskId))
  {
  }

  /** The state after the interval has fired once per answer in `responses`; the interval exists
      only while the task id is truthy, so answers after the watch ended are never requested. */
  function Ticks(w: Watch, responses: seq<Outcome<string>>): Watch {
    if responses == [] then w
    else
      var before := Ticks(w, responses[..|responses| - 1]);
      if TruthyText(before.taskId) then PollStep(before, responses[|responses| - 1]) else before
  }

  /** The number of status requests the poller makes over `responses`. */
  function Requests(w: Watch, responses: seq<Outcome<string>>): nat {
    if responses == [] then 0
    else
      var before := Ticks(w, responses[..|responses| - 1]);
      Requests(w, responses[..|responses| - 1]) + (if TruthyText(before.taskId) then 1 else 0)
  }

  /** While no answer ends the watch, every tick polls and nothing changes. */
  lemma {:induction false} WatchKeptWithoutEndingAnswer(w: Watch, responses: seq<Outcome<string>>)
    requires TruthyText(w.taskId)
    requires forall i :: 0 <= i < |responses| ==> !EndsWatch(responses[i])
    ensures Ticks(w, responses) == w && Requests(w, responses) == |responses|
  {
    if responses != [] {
      var init := responses[..|responses| - 1];
      assert forall i :: 0 <= i < |init| ==> init[i] == responses[i];
      WatchKeptWithoutEndingAnswer(w, init);
    }
  }

  /** Once some answer ends the watch, it stays ended. */
  lemma {:induction false} WatchClosedAfterEndingAnswer(w: Watch, responses: seq<Outcome<string>>, n: nat)
    requires TruthyText(w.taskId)
    requires n < |responses| && EndsWatch(responses[n])
    ensures Ticks(w, responses) == Watch(false, None)
  {
    var init := responses[..|responses| - 1];
    assert forall i :: 0 <= i < |init| ==> init[i] == responses[i];
    if n < |init| {
      WatchClosedAfterEndingAnswer(w, init, n);
    } else if exists m :: 0 <= m < |init| && EndsWatch(init[m]) {
      var m :| 0 <= m < |init| && EndsWatch(init[m]);
      WatchClosedAfterEndingAnswer(w, init, m);
    } else {
      WatchKeptWithoutEndingAnswer(w, init);
    }
  }

  /** Polling makes exactly one request per answer up to and including the first ending one. */
  lemma {:induction false} RequestsUpToFirstEndingAnswer(w: Watch, responses: seq<Outcome<string>>, n: nat)
    requires TruthyText(w.taskId)
    requires n < |responses| && EndsWatch(responses[n])
    requires forall i :: 0 <= i < n ==> !EndsWatch(responses[i])
    ensures Requests(w, responses) == n + 1
  {
    var init := responses[..|responses| - 1];
    assert forall i :: 0 <= i < |init| ==> init[i] == responses[i];
    if n < |init| {
      RequestsUpToFirstEndingAnswer(w, init, n);
      WatchClosedAfterEndingAnswer(w, init, n);
    } else {
      WatchKeptWithoutEndingAnswer(w, init);
    }
  }

  /** Watching a task: the watch ends (dialog closed, task forgotten) exactly when some answer
      ends it, it is left unchanged otherwise, and polling stops right after the first ending
      answer. */
  lemma WatchEndsAtFirstEndingAnswer(w: Watch, responses: seq<Outcome<string>>)
    requires TruthyText(w.taskId)
    ensures (exists i :: 0 <= i < |responses| && EndsWatch(responses[i])) ==> Ticks(w, responses) == Watch(false, None)
    ensures (forall i :: 0 <= i < |responses| ==> !EndsWatch(responses[i])) ==>
              Ticks(w, responses) == w && Requests(w, responses) == |responses|
    ensures forall n :: (0 <= n < |responses| && EndsWatch(responses[n]) && forall i :: 0 <= i < n ==> !EndsWatch(responses[i]))
              ==> Requests(w, responses) == n + 1
  {
    if exists i :: 0 <= i < |responses| && EndsWatch(responses[i]) {
      var i :| 0 <= i < |responses| && EndsWatch(responses[i]);
      WatchClosedAfterEndingAnswer(w, responses, i);
    } else {
      WatchKeptWithoutEndingAnswer(w, responses);
    }
    forall n | 0 <= n < |responses| && EndsWatch(responses[n]) && (forall i :: 0 <= i < n ==> !EndsWatch(responses[i]))
      ensures Requests(w, responses) == n + 1
    {
      RequestsUpToFirstEndingAnswer(w, responses, n);
    }
  }

  class InstanceItem {
    /** `formData.id` of the item. */
    const itemId: int
    /** `formData?.green_api_instance_id` */
    const instanceId: Option<string>
    /** The item's schema title is "GreenApiData". */
    const isGreenApiData: bool
    var instanceDialogOpen: bool
    var createInstanceTaskId: Option<string>
    var codeDialogOpen: bool
    var qrDialogOpen: bool
    /** Item ids sent to the bind endpoint, and task ids sent to the status endpoint. */
    var bindRequests: seq<int>
    var statusRequests: seq<string>

    constructor (itemId: int, instanceId: Option<string>, isGreenApiData: bool)
      ensures this.itemId == itemId && this.instanceId == instanceId && this.isGreenApiData == isGreenApiData
      ensures !instanceDialogOpen && createInstanceTaskId == None && !codeDialogOpen && !qrDialogOpen
      ensures bindRequests == [] && statusRequests == []
    {
      this.itemId, this.instanceId, this.isGreenApiData := itemId, instanceId, isGreenApiData;
      instanceDialogOpen, createInstanceTaskId, codeDialogOpen, qrDialogOpen := false, None, false, false;
      bindRequests, statusRequests := [], [];
    }

    function State(): Watch
      reads this
    {
      Watch(instanceDialogOpen, createInstanceTaskId)
    }

    /** "Create whatsapp instance": the progress dialog opens before the request; the task id it
        answers with starts the watch, and a failure leaves the dialog open with no new task. */
    method BindWhatsapp(response: Outcome<string>)
      modifies this`instanceDialogOpen, this`createInstanceTaskId, this`bindRequests
      ensures instanceDialogOpen
      ensures bindRequests == old(bindRequests) + [itemId]
      ensures createInstanceTaskId == if response.Resolved? then Some(response.value) else old(createInstanceTaskId)
    {
      instanceDialogOpen := true;
      bindRequests := bindRequests + [itemId];
      if response.Resolved? {
        createInstanceTaskId := Some(response.value);
      }
    }

    /** One firing of the 2-second interval, which exists only while the task id is truthy. */
    method Tick(response: Outcome<string>)
      requires TruthyText(createInstanceTaskId)
      modifies this`instanceDialogOpen, this`createInstanceTaskId, this`statusRequests
      ensures statusRequests == old(statusRequests) + [old(createInstanceTaskId).value]
      ensures State() == PollStep(old(State()), response)
    {
      statusRequests := statusRequests + [createInstanceTaskId.value];
      if EndsWatch(response) {
        instanceDialogOpen := false;
        createInstanceTaskId := None;
      }
    }

    /** The progress dialog's own open/close requests; the watch goes on. */
    method SetInstanceDialogOpen(open: bool)
      modifies this`instanceDialogOpen
      ensures instanceDialogOpen == open
    {
      instanceDialogOpen := open;
    }

    method SetCodeDialogOpen(open: bool)
      modifies this`codeDialogOpen
      ensures codeDialogOpen == open
    {
      codeDialogOpen := open;
    }

    method SetQrDialogOpen(open: bool)
      modifies this`qrDialogOpen
      ensures qrDialogOpen == open
    {
      qrDialogOpen := open;
    }
  }

  /** A bind whose task reports FAILURE first and SUCCESS next: two status requests, after which
      the dialog is closed and the watch is over. */
  method BindThenPoll(taskId: string)
    requires taskId != ""
  {
    var item := new InstanceItem(5, None, true);
    item.BindWhatsapp(Resolved(taskId));
    assert item.instanceDialogOpen && item.bindRequests == [5];
    item.Tick(Resolved("FAILURE"));
    assert item.State() == Watch(true, Some(taskId));
    item.Tick(Resolved("SUCCESS"));
    assert item.State() == Watch(false, None) && item.statusRequests == [taskId, taskId];
  }

  /** The toolbar inputs the item receives from the form library, plus the item's own data. */
  datatype ItemProps = ItemProps(
    disabled: bool, readonly: bool, hasToolbar: bool, hasCopy: bool,
    hasMoveUp: bool, hasMoveDown: bool, hasRemove: bool,
    isGreenApiData: bool, instanceId: Option<string>)

  datatype ButtonState = Hidden | Enabled | Disabled

  datatype Toolbar = Toolbar(
    moveUp: ButtonState, moveDown: ButtonState, copy: ButtonState,
    createInstance: ButtonState, getCode: ButtonState, getQr: ButtonState, remove: ButtonState)

  function Shown(show: bool, disabled: bool): ButtonState {
    if !show then Hidden else if disabled then Disabled else Enabled
  }

  /** Which toolbar buttons an item shows and which of them are usable. */
  function ToolbarOf(p: ItemProps): (t: Toolbar)
    ensures !p.hasToolbar ==> t == Toolbar(Hidden, Hidden, Hidden, Hidden, Hidden, Hidden, Hidden)
    // a GreenApiData item offers exactly one of: create an instance, or get its code and QR
    ensures p.hasToolbar && p.isGreenApiData ==>
              (t.createInstance != Hidden <==> t.getCode == Hidden) && t.getQr == t.getCode
    ensures !p.isGreenApiData ==> t.createInstance == t.getCode == t.getQr == Hidden
    // the instance buttons ignore readonly and disabled
    ensures t.createInstance != Disabled && t.getCode != Disabled && t.getQr != Disabled
    ensures t.createInstance == Enabled <==> p.hasToolbar && p.isGreenApiData && !TruthyText(p.instanceId)
    // the form's own buttons are never usable on a readonly or disabled form
    ensures p.readonly || p.disabled ==>
              t.moveUp != Enabled && t.moveDown != Enabled && t.copy != Enabled && t.remove != Enabled
    // both move buttons appear together, each usable only in its own direction
    ensures (t.moveUp == Hidden) == (t.moveDown == Hidden)
    ensures t.moveUp != Hidden <==> p.hasToolbar && (p.hasMoveUp || p.hasMoveDown)
    ensures t.moveUp == Enabled ==> p.hasMoveUp
    ensures t.moveDown == Enabled ==> p.hasMoveDown
    ensures t.copy != Hidden <==> p.hasToolbar && p.hasCopy
    ensures t.remove != Hidden <==> p.hasToolbar && p.hasRemove
  {
    if !p.hasToolbar then Toolbar(Hidden, Hidden, Hidden, Hidden, Hidden, Hidden, Hidden)
    else
      var locked := p.disabled || p.readonly;
      var move := p.hasMoveUp || p.hasMoveDown;
      var bound := TruthyText(p.instanceId);
      Toolbar(
        Shown(move, locked || !p.hasMoveUp),
        Shown(move, locked || !p.hasMoveDown),
        Shown(p.hasCopy, locked),
        Shown(!bound && p.isGreenApiData, false),
        Shown(bound && p.isGreenApiData, false),
        Shown(bound && p.isGreenApiData, false),
        Shown(p.hasRemove, locked))
  }
}
