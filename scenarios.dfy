/**
 * Interleavings of the redraw loop and the background task, each starting
 * from the default settings. Each method drives the state machine of module App
 * through one schedule and states what the window observes.
 */
module Scenarios {
  import opened Wrappers
  import opened Chat
  import opened Text
  import Settings
  import opened AppCore

  /** The prompt of the role selected at start-up. */
  function FirstPrompt(): string {
    Settings.Default().roleList[0].prompt
  }

  /** A successful exchange where the task takes the lock before the next
      frame: the spinner shows only while the task holds the lock,
      reconciliation does nothing meanwhile, then brings in exactly the new
      messages once, and a second pass does nothing. */
  method ExchangeWithReply(text: string, reply: string)
      returns (busyBeforeAcquire: bool, busyWhileHolding: bool, syncWhileHolding: bool,
               busyAfter: bool, syncAfter: bool, syncAgain: bool,
               view: seq<ChatMessage>, shown: seq<ChatMessage>)
    requires Submittable(text)
    ensures !busyBeforeAcquire && busyWhileHolding && !syncWhileHolding
    ensures !busyAfter && syncAfter && !syncAgain
    ensures view == DirectedSeed(FirstPrompt()) + [ChatMessage(User, Trim(text)), ChatMessage(Assistant, reply)]
    ensures shown == [ChatMessage(User, Trim(text)), ChatMessage(Assistant, reply)]
  {
    var app := new App(Settings.Default());
    app.pmt := text;
    var task := app.SubmitOnEnter(true);
    busyBeforeAcquire := app.RenderSpinnerIfNecessary();
    var acquired := task.Acquire();
    busyWhileHolding := app.RenderSpinnerIfNecessary();
    syncWhileHolding := app.SyncNewMessage();
    task.Complete(Sent([ChatMessage(User, Trim(text)), ChatMessage(Assistant, reply)]));
    busyAfter := app.RenderSpinnerIfNecessary();
    syncAfter := app.SyncNewMessage();
    syncAgain := app.SyncNewMessage();
    view := app.history;
    shown := RenderedTranscript(view, app.currentRole.prompt);
    VisibleAppend(DirectedSeed(FirstPrompt()), [ChatMessage(User, Trim(text)), ChatMessage(Assistant, reply)], FirstPrompt());
    VisibleKeepsAll([ChatMessage(User, Trim(text)), ChatMessage(Assistant, reply)], FirstPrompt());
  }

  /** A failed exchange: the session gains the backend's additions and one
      trailing System message with the error; the error is shown unless its
      text happens to equal the role prompt. */
  method FailedExchange(text: string, error: string)
      returns (synced: bool, view: seq<ChatMessage>, shown: seq<ChatMessage>)
    requires Submittable(text)
    ensures synced
    ensures view == DirectedSeed(FirstPrompt()) + [ChatMessage(User, Trim(text)), ChatMessage(System, error)]
    ensures shown == [ChatMessage(User, Trim(text))] +
                     (if error == FirstPrompt() then [] else [ChatMessage(System, error)])
  {
    var app := new App(Settings.Default());
    app.pmt := text;
    var task := app.SubmitOnEnter(true);
    var acquired := task.Acquire();
    task.Complete(Failed([ChatMessage(User, Trim(text))], error));
    synced := app.SyncNewMessage();
    view := app.history;
    shown := RenderedTranscript(view, app.currentRole.prompt);
    VisibleAppend(DirectedSeed(FirstPrompt()) + [ChatMessage(User, Trim(text))], [ChatMessage(System, error)], FirstPrompt());
    VisibleAppend(DirectedSeed(FirstPrompt()), [ChatMessage(User, Trim(text))], FirstPrompt());
  }

  /** The first prompt of a new session, with a frame drawn before the task
      takes the lock: the view [User] and the seeded session [System] have
      the same length and different last messages, so reconciliation
      replaces the view by the seed, which the filter hides. The user's
      message disappears until the reply arrives. */
  method FirstPromptDroppedAsWritten(text: string)
      returns (synced: bool, view: seq<ChatMessage>, shown: seq<ChatMessage>)
    requires Submittable(text)
    ensures synced
    ensures view == DirectedSeed(FirstPrompt())
    ensures ChatMessage(User, Trim(text)) !in view
    ensures shown == []
  {
    var app := new App(Settings.Default());
    app.pmt := text;
    var task := app.SubmitOnEnter(true);
    synced := app.SyncNewMessage();
    view := app.history;
    shown := RenderedTranscript(view, app.currentRole.prompt);
  }

  /** The same schedule under the corrected rule: the frame before the task
      runs keeps the user's message, and after the reply reconciliation
      still brings in the whole exchange. */
  method FirstPromptKeptCorrected(text: string, reply: string)
      returns (syncBefore: bool, viewBefore: seq<ChatMessage>, syncAfter: bool, viewAfter: seq<ChatMessage>)
    requires Submittable(text)
    ensures !syncBefore && viewBefore == [ChatMessage(User, Trim(text))]
    ensures syncAfter
    ensures viewAfter == DirectedSeed(FirstPrompt()) + [ChatMessage(User, Trim(text)), ChatMessage(Assistant, reply)]
  {
    var app := new App(Settings.Default());
    app.pmt := text;
    var task := app.SubmitOnEnter(true);
    syncBefore := app.Reconcile(StrictLength);
    viewBefore := app.history;
    var acquired := task.Acquire();
    task.Complete(Sent([ChatMessage(User, Trim(text)), ChatMessage(Assistant, reply)]));
    syncAfter := app.Reconcile(StrictLength);
    viewAfter := app.history;
  }

  /** A role switch while the task holds the lock: the window drops the
      session at once; the task still completes on the old conversation,
      which the window never observes again. */
  method OrphanedTaskUnobserved(text: string, reply: string)
      returns (synced: bool, view: seq<ChatMessage>, orphanHistory: seq<ChatMessage>)
    requires Submittable(text)
    ensures !synced && view == []
    ensures orphanHistory == DirectedSeed(FirstPrompt()) + [ChatMessage(User, Trim(text)), ChatMessage(Assistant, reply)]
  {
    var app := new App(Settings.Default());
    app.pmt := text;
    var task := app.SubmitOnEnter(true);
    var acquired := task.Acquire();
    app.RenderRoleList(Some(1));
    task.Complete(Sent([ChatMessage(User, Trim(text)), ChatMessage(Assistant, reply)]));
    synced := app.SyncNewMessage();
    view := app.history;
    orphanHistory := task.conversation.history;
  }

  /** Nothing stops a second submission while the first task holds the
      lock: a second task is spawned on the same session and waits. */
  method SecondSubmissionWhileBusy(first: string, second: string)
      returns (busy: bool, secondSpawned: bool, secondAcquired: bool, view: seq<ChatMessage>)
    requires Submittable(first) && Submittable(second)
    ensures busy && secondSpawned && !secondAcquired
    ensures view == [ChatMessage(User, Trim(first)), ChatMessage(User, Trim(second))]
  {
    var app := new App(Settings.Default());
    app.pmt := first;
    var task1 := app.SubmitOnEnter(true);
    var acquired := task1.Acquire();
    busy := app.RenderSpinnerIfNecessary();
    app.pmt := second;
    var task2 := app.SubmitOnEnter(true);
    secondSpawned := task2 != null;
    secondAcquired := task2.Acquire();
    view := app.history;
  }

  /** Two frames in a row with nothing in between, from any state of the
      window: whatever the first reconciliation did, the second returns
      false and leaves the view as the first left it. */
  method ReconcileTwice(app: App) returns (first: bool, second: bool)
    modifies app
    ensures first == (old(app.conversation) != null && !old(app.conversation.locked) &&
                      SyncWanted(old(app.history), old(app.conversation.history)))
    ensures !second
    ensures app.conversation == old(app.conversation)
    ensures app.history == if first then app.conversation.history else old(app.history)
  {
    first := app.SyncNewMessage();
    second := app.SyncNewMessage();
  }
}
