/** The fourth-wall layer: a first-in first-out queue of messages shown one at
    a time in a dialog box, event counters, and the message pools. */
module Narrative {
  import opened Basics

  /** The creepy messages: six early, eight mid-game and nine late ones. */
  const Messages: seq<string> := [
    "Did you think this would be easy?",
    "Keep trying. It won't help.",
    "I can see you.",
    "This isn't just a game.",
    "I know your name.",
    "Are you enjoying this?",
    "Why do you persist?",
    "There is no winning here.",
    "Your efforts are meaningless.",
    "I remember all your deaths.",
    "The exit is a lie.",
    "I can feel you getting frustrated.",
    "Your determination is amusing.",
    "Do you think this is just a game?",
    "STOP PLAYING",
    "YOU CAN'T ESCAPE",
    "I'M INSIDE YOUR COMPUTER NOW",
    "CLOSE THE BROWSER. NOW.",
    "THIS IS YOUR FINAL WARNING",
    "I CAN SEE YOUR DESKTOP",
    "CHECK BEHIND YOU",
    "I'M SAVING YOUR PROGRESS FOREVER",
    "YOUR DEVICE BELONGS TO ME NOW"
  ]

  const DeathMessages: seq<string> := [
    "Another failure.",
    "Did that hurt?",
    "I enjoy watching you die.",
    "Try again. And again. And again.",
    "Your persistence is amusing."
  ]

  const ExitMessages: seq<string> := [
    "You thought that was the exit? Funny.",
    "The exit keeps moving. Just like your hopes.",
    "There is no escape.",
    "That exit was never real.",
    "Keep chasing the impossible."
  ]

  const RestartMessages: seq<string> := [
    "Even restarting won't help you.",
    "I remember everything you've done.",
    "You can't escape by restarting.",
    "Your progress is an illusion.",
    "Starting over changes nothing."
  ]

  /** How long a message stays on screen, in milliseconds. */
  const MessageDisplayTime: real := 5000.0

  /** The events the engine reports. */
  datatype Event = PlayerDeath | ReachedExit | GameRestart

  /** The deferred hiding of the dialog box, due after `delay` ms. */
  datatype MetaTimer = HideDialog(delay: real)

  /** The draws of one `update`: the ambient-message roll and the pick. */
  datatype MetaDraws = MetaDraws(ambient: Unit, pick: Unit)

  /** `pool[Math.floor(Math.random() * pool.length)]`. */
  function PickFrom(pool: seq<string>, r: Unit): (m: string)
    requires |pool| > 0
    ensures m in pool
  {
    pool[PickIndex(|pool|, r)]
  }

  /** The index into `Messages` that `showRandomMessage` picks: the slice
      [0, 4) below intensity 0.3, [4, 9) below 0.6, and [9, 23) otherwise. */
  function RandomMessageIndex(intensity: real, r: Unit): (k: nat)
    ensures k < |Messages|
    ensures intensity < 0.3 ==> k < 4
    ensures 0.3 <= intensity < 0.6 ==> 4 <= k < 9
    ensures 0.6 <= intensity ==> 9 <= k
  {
    if intensity < 0.3 then PickIndex(4, r)
    else if intensity < 0.6 then 4 + PickIndex(5, r)
    else 9 + PickIndex(|Messages| - 9, r)
  }

  /** The message of `showRandomMessage`. */
  function RandomMessage(intensity: real, r: Unit): string
  {
    Messages[RandomMessageIndex(intensity, r)]
  }

  /** The pool an event draws from. */
  function EventPool(e: Event): (pool: seq<string>)
    ensures |pool| == 5
  {
    match e
    case PlayerDeath => DeathMessages
    case ReachedExit => ExitMessages
    case GameRestart => RestartMessages
  }

  class MetaManager {
    /** Whether the page has the dialog element; without it nothing shows. */
    const hasDialogBox: bool

    var messageQueue: seq<string>
    var currentlyShowingMessage: bool
    /** The dialog's content and visibility. */
    var dialogText: string
    var dialogVisible: bool

    var deathCount: nat
    var exitReachedCount: nat
    var restartCount: nat

    /** Every message ever queued, and every message taken off the queue
        (shown, or dropped for want of a dialog box), in order. */
    ghost var enqueued: seq<string>
    ghost var dequeued: seq<string>

    /** The queue is first-in first-out: what was taken off, followed by what
        waits, is exactly what was put on, in the same order. The dialog is
        visible exactly while the lock is held. */
    ghost predicate Valid()
      reads this
    {
      && dequeued + messageQueue == enqueued
      && dialogVisible == currentlyShowingMessage
      && (currentlyShowingMessage ==> hasDialogBox)
    }

    constructor (hasDialogBox: bool)
      ensures Valid() && this.hasDialogBox == hasDialogBox
      ensures messageQueue == [] && !currentlyShowingMessage
      ensures deathCount == 0 && exitReachedCount == 0 && restartCount == 0
    {
      this.hasDialogBox := hasDialogBox;
      messageQueue := [];
      currentlyShowingMessage := false;
      dialogText := "";
      dialogVisible := false;
      deathCount, exitReachedCount, restartCount := 0, 0, 0;
      enqueued, dequeued := [], [];
    }

    /** `queueMessage`: append at the tail, no deduplication. */
    method QueueMessage(m: string)
      requires Valid()
      modifies this
      ensures Valid()
      ensures messageQueue == old(messageQueue) + [m] && enqueued == old(enqueued) + [m]
      ensures dequeued == old(dequeued)
      ensures currentlyShowingMessage == old(currentlyShowingMessage) && dialogText == old(dialogText)
      ensures deathCount == old(deathCount) && exitReachedCount == old(exitReachedCount)
      ensures restartCount == old(restartCount)
    {
      messageQueue := messageQueue + [m];
      enqueued := enqueued + [m];
    }

    /** `showMessage`: without a dialog box nothing happens; otherwise take
        the lock, show the message and schedule the release. */
    method ShowMessage(m: string) returns (timers: seq<MetaTimer>)
      requires Valid()
      modifies this
      ensures Valid()
      ensures !hasDialogBox ==> timers == [] && currentlyShowingMessage == old(currentlyShowingMessage)
                                && dialogText == old(dialogText) && dialogVisible == old(dialogVisible)
      ensures hasDialogBox ==> timers == [HideDialog(MessageDisplayTime)] && currentlyShowingMessage
                               && dialogText == m && dialogVisible
      ensures messageQueue == old(messageQueue) && enqueued == old(enqueued) && dequeued == old(dequeued)
      ensures deathCount == old(deathCount) && exitReachedCount == old(exitReachedCount)
      ensures restartCount == old(restartCount)
    {
      timers := [];
      if !hasDialogBox {
        return;
      }
      currentlyShowingMessage := true;
      dialogText := m;
      dialogVisible := true;
      timers := [HideDialog(MessageDisplayTime)];
    }

    /** The timed callback of `showMessage`: hide the box, release the lock. */
    method HideDialogBox()
      requires Valid()
      modifies this
      ensures Valid()
      ensures !currentlyShowingMessage && !dialogVisible && dialogText == old(dialogText)
      ensures messageQueue == old(messageQueue) && enqueued == old(enqueued) && dequeued == old(dequeued)
      ensures deathCount == old(deathCount) && exitReachedCount == old(exitReachedCount)
      ensures restartCount == old(restartCount)
    {
      dialogVisible := false;
      currentlyShowingMessage := false;
    }

    /** `update`: while no message shows, take at most one off the head of the
        queue and show it; then, above intensity 0.3, maybe queue a random one. */
    method Update(deltaTime: real, intensity: real, d: MetaDraws) returns (timers: seq<MetaTimer>)
      requires Valid()
      modifies this
      ensures Valid()
      ensures var taken := !old(currentlyShowingMessage) && |old(messageQueue)| > 0;
              var rest := if taken then old(messageQueue)[1..] else old(messageQueue);
              var ambient := intensity > 0.3 && d.ambient < intensity * 0.0001 * deltaTime;
              && messageQueue == rest + (if ambient then [RandomMessage(intensity, d.pick)] else [])
              && (taken ==> dequeued == old(dequeued) + [old(messageQueue)[0]])
              && (!taken ==> dequeued == old(dequeued) && timers == [] && dialogText == old(dialogText)
                             && currentlyShowingMessage == old(currentlyShowingMessage))
              && (taken && hasDialogBox ==> currentlyShowingMessage && dialogText == old(messageQueue)[0]
                                            && timers == [HideDialog(MessageDisplayTime)])
              && (taken && !hasDialogBox ==> timers == [] && !currentlyShowingMessage)
      ensures deathCount == old(deathCount) && exitReachedCount == old(exitReachedCount)
      ensures restartCount == old(restartCount)
    {
      timers := [];
      if !currentlyShowingMessage && |messageQueue| > 0 {
        var m := messageQueue[0];
        messageQueue := messageQueue[1..];
        dequeued := dequeued + [m];
        timers := ShowMessage(m);
      }
      if intensity > 0.3 && d.ambient < intensity * 0.0001 * deltaTime {
        ShowRandomMessage(intensity, d.pick);
      }
    }

    /** `triggerEvent`: count the event; a death queues a message only when the
        new death count is even, the other events always queue one. */
    method TriggerEvent(e: Event, r: Unit)
      requires Valid()
      modifies this
      ensures Valid()
      ensures deathCount == old(deathCount) + (if e == PlayerDeath then 1 else 0)
      ensures exitReachedCount == old(exitReachedCount) + (if e == ReachedExit then 1 else 0)
      ensures restartCount == old(restartCount) + (if e == GameRestart then 1 else 0)
      ensures messageQueue == old(messageQueue) +
                (if e == PlayerDeath && deathCount % 2 == 1 then [] else [PickFrom(EventPool(e), r)])
      ensures currentlyShowingMessage == old(currentlyShowingMessage) && dequeued == old(dequeued)
    {
      match e
      case PlayerDeath =>
        deathCount := deathCount + 1;
        if deathCount % 2 == 0 {
          QueueMessage(PickFrom(DeathMessages, r));
        }
      case ReachedExit =>
        exitReachedCount := exitReachedCount + 1;
        QueueMessage(PickFrom(ExitMessages, r));
      case GameRestart =>
        restartCount := restartCount + 1;
        QueueMessage(PickFrom(RestartMessages, r));
    }

    /** `showRandomMessage`: queue a message of the intensity's band. */
    method ShowRandomMessage(intensity: real, r: Unit)
      requires Valid()
      modifies this
      ensures Valid()
      ensures messageQueue == old(messageQueue) + [RandomMessage(intensity, r)]
      ensures currentlyShowingMessage == old(currentlyShowingMessage) && dialogText == old(dialogText)
      ensures dequeued == old(dequeued)
      ensures deathCount == old(deathCount) && exitReachedCount == old(exitReachedCount)
      ensures restartCount == old(restartCount)
    {
      QueueMessage(RandomMessage(intensity, r));
    }
  }

  /** Deaths queue a message on every second death: after n deaths starting
      from zero, floor(n / 2) death messages have been queued. */
  function DeathMessagesQueued(n: nat): nat
  {
    if n == 0 then 0 else DeathMessagesQueued(n - 1) + (if n % 2 == 0 then 1 else 0)
  }

  lemma {:induction false} DeathMessagesEverySecond(n: nat)
    ensures DeathMessagesQueued(n) == n / 2
  {
    if n > 0 {
      DeathMessagesEverySecond(n - 1);
    }
  }

  /** n deaths reported to the narrative queue a message on every second one:
      starting from c deaths, (c + n) / 2 - c / 2 messages, which from zero
      deaths is `DeathMessagesQueued(n)`. */
  method ReportDeaths(meta: MetaManager, n: nat, picks: nat -> Unit)
    requires meta.Valid()
    modifies meta
    ensures meta.Valid() && meta.deathCount == old(meta.deathCount) + n
    ensures |meta.messageQueue| == |old(meta.messageQueue)| + (old(meta.deathCount) + n) / 2 - old(meta.deathCount) / 2
    ensures old(meta.deathCount) == 0 ==> |meta.messageQueue| == |old(meta.messageQueue)| + DeathMessagesQueued(n)
    ensures meta.messageQueue[..|old(meta.messageQueue)|] == old(meta.messageQueue)
  {
    var i := 0;
    while i < n
      invariant 0 <= i <= n && meta.Valid()
      invariant meta.deathCount == old(meta.deathCount) + i
      invariant |meta.messageQueue| == |old(meta.messageQueue)| + (old(meta.deathCount) + i) / 2 - old(meta.deathCount) / 2
      invariant |meta.messageQueue| >= |old(meta.messageQueue)|
      invariant meta.messageQueue[..|old(meta.messageQueue)|] == old(meta.messageQueue)
    {
      ghost var before := meta.messageQueue;
      meta.TriggerEvent(PlayerDeath, picks(i));
      assert before[..|old(meta.messageQueue)|] == old(meta.messageQueue);
      assert meta.messageQueue[..|before|] == before;
      i := i + 1;
    }
    DeathMessagesEverySecond(n);
  }

  /** The messages the ambient roll and the major glitch can queue: both ask
      only above intensity 0.3, so the early slice [0, 4) is never drawn. */
  lemma AmbientSkipsEarlyMessages(intensity: real, r: Unit)
    requires intensity > 0.3
    ensures 4 <= RandomMessageIndex(intensity, r) < |Messages|
  {
  }

  /** Three queued messages and one update leave one shown and two queued. */
  method ThreeQueuedOneUpdate(a: string, b: string, c: string, deltaTime: real, d: MetaDraws)
    returns (shown: string, queued: seq<string>, locked: bool)
    ensures shown == a && queued == [b, c] && locked
  {
    var meta := new MetaManager(true);
    meta.QueueMessage(a);
    meta.QueueMessage(b);
    meta.QueueMessage(c);
    var _ := meta.Update(deltaTime, 0.0, d);
    shown, queued, locked := meta.dialogText, meta.messageQueue, meta.currentlyShowingMessage;
  }

  /** While a message shows, further updates show nothing new: the queue only
      grows and the dialog keeps its text until the release fires. */
  method LockedUpdate(meta: MetaManager, deltaTime: real, intensity: real, d: MetaDraws)
    requires meta.Valid() && meta.currentlyShowingMessage
    modifies meta
    ensures meta.Valid() && meta.currentlyShowingMessage && meta.dialogText == old(meta.dialogText)
    ensures |meta.messageQueue| >= |old(meta.messageQueue)| && meta.dequeued == old(meta.dequeued)
  {
    var _ := meta.Update(deltaTime, intensity, d);
  }
}
