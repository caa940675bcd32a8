/** The lock protocol: ingestions, join observations, filings and erasures as processes
    over the fair erasure fence, the stamp lock and the filing door, one store operation
    a step. */
module Protocol {
  import opened Vocabulary
  import opened Kind
  import opened Tables
  import opened Erasure
  import opened Convergence
  import opened Effects
  import opened Filing

  // ─── Processes, locks and stages ───────────────────────────────────────

  /** One join event as the platform reports it: everybody it names whose objection does
      not stand, under the event's one id. */
  datatype JoinEvent = JoinEvent(origin: string, joinedAt: string, joiners: seq<Joiner>)
  {
    function NoticeOf(joiner: Joiner): JoinNotice {
      JoinNotice(Some(joiner.name), joiner.handle, Some(joiner.principalId), Some(origin), Some(joinedAt))
    }
  }

  datatype Joiner = Joiner(principalId: int, name: string, handle: Option<string>)

  /** One call: an ingestion that may be refused at admission or dropped under the
      stamp lock, and may carry a deletion command; an observed join event, which an
      unauthorized group has withdrawn; a filing; a person-wide erasure. */
  datatype Work =
    | Ingest(conversation: int, admitted: bool, recorded: bool, mirror: Option<string>, row: ChatMessage)
    | Observe(conversation: int, admitted: bool, event: JoinEvent)
    | File(conversation: int, window: Window, asked: Asked)
    | Erase(person: int)

  /** Where a process is. `Nulling` and `Erasing` carry, as history, the tables as the
      process found them. */
  datatype Stage =
    | Idle | FenceAsked | FenceHeld
    | StampAsked | StampHeld
    | DoorAsked | DoorHeld
    | Nulling(before: Tables, found: bool, done: nat)
    | MirrorDone | RowWritten
    | Joining(left: seq<Joiner>)
    | Scanned(pending: Option<Filed>)
    | Erasing(before: Tables, conversations: seq<int>, done: nat)
    | Leaving | Finished

  /** A fair reader/writer lock: a request waits behind every request queued before it,
      so a queued writer holds later readers back. */
  datatype Fence = Fence(readers: set<nat>, writer: Option<nat>, queue: seq<nat>)

  datatype Mutex = Mutex(owner: Option<nat>, queue: seq<nat>)

  datatype State = State(
    work: seq<Work>, stages: seq<Stage>,
    fence: Fence, stamp: Mutex, door: Mutex,
    tables: Tables, next: int)

  /** The order a filing takes its two locks in: the one the door's contract fixes, and
      the one it forbids. */
  datatype Order = FenceFirst | DoorFirst

  /** Which process moves; `plan` is the order an erasure reads its plan in. */
  datatype Move = Move(pid: nat, plan: seq<int>)

  function Start(work: seq<Work>, tables: Tables, next: int): State {
    State(work, seq(|work|, _ => Idle), Fence({}, None, []), Mutex(None, []), Mutex(None, []), tables, next)
  }

  // ─── Store operations ──────────────────────────────────────────────────

  /** One store operation of an erasure. */
  function ErasureStep(t: Tables, person: int, conversations: seq<int>, k: nat): Tables
    requires k < Whole(conversations)
  {
    if k < PASSES then Pass(t, person, k)
    else if k < PASSES + 2 * |conversations| then
      var c := conversations[(k - PASSES) / 2];
      if (k - PASSES) % 2 == 0 then Unmapped(t, c) else ConversationDeleted(t, c)
    else if k == PASSES + 2 * |conversations| then OrphansCollected(t)
    else IdentityConcluded(t, person)
  }

  const MIRROR: nat := 5

  /** One store operation of the deletion mirror. */
  function MirrorStep(t: Tables, conversation: int, named: string, k: nat): Tables
    requires k < MIRROR
  {
    match k
    case 0 => MessageNamedEmptied(t, conversation, named)
    case 1 => EventNamedEmptied(t, conversation, named)
    case 2 => ReplyReferencesNulled(t, conversation, named)
    case 3 => ReportReferencesNulled(t, conversation, named)
    case 4 => MarkReferencesNulled(t, conversation, named)
  }

  /** The rows the first two mirror operations reached so far. */
  predicate Reached(t: Tables, conversation: int, named: string, k: nat) {
    if k == 0 then exists b | b in t.messages :: t.messages[b].AnswersTo(named) && (conversation, b) in t.held
    else if k == 1 then exists b | b in t.joins :: t.joins[b].origin == Some(named) && (conversation, b) in t.held
    else false
  }

  /** The copies are nulled exactly when a record was there. */
  function MirrorLength(found: bool, done: nat): nat {
    if done < 2 || found then MIRROR else 2
  }

  // ─── Steps ─────────────────────────────────────────────────────────────

  function At(s: State, i: nat, stage: Stage): State
    requires i < |s.stages|
  {
    s.(stages := s.stages[i := stage])
  }

  function AskFence(s: State, i: nat): State
    requires i < |s.stages|
  {
    At(s, i, FenceAsked).(fence := s.fence.(queue := s.fence.queue + [i]))
  }

  function AskStamp(s: State, i: nat): State
    requires i < |s.stages|
  {
    At(s, i, StampAsked).(stamp := s.stamp.(queue := s.stamp.queue + [i]))
  }

  function AskDoor(s: State, i: nat): State
    requires i < |s.stages|
  {
    At(s, i, DoorAsked).(door := s.door.(queue := s.door.queue + [i]))
  }

  /** A fence request is granted at the head of the queue: a reader when no writer
      holds, a writer when nobody does. */
  predicate FenceGrantable(s: State, i: nat)
    requires i < |s.work|
  {
    && |s.fence.queue| > 0 && s.fence.queue[0] == i && s.fence.writer.None?
    && (s.work[i].Erase? ==> s.fence.readers == {})
  }

  predicate Grantable(mutex: Mutex, i: nat) {
    |mutex.queue| > 0 && mutex.queue[0] == i && mutex.owner.None?
  }

  function TakeFence(s: State, i: nat): State
    requires i < |s.work| == |s.stages| && FenceGrantable(s, i)
  {
    At(s, i, FenceHeld).(fence :=
      if s.work[i].Erase? then Fence(s.fence.readers, Some(i), s.fence.queue[1..])
      else Fence(s.fence.readers + {i}, s.fence.writer, s.fence.queue[1..]))
  }

  function TakeStamp(s: State, i: nat): State
    requires i < |s.stages| && Grantable(s.stamp, i)
  {
    At(s, i, StampHeld).(stamp := Mutex(Some(i), s.stamp.queue[1..]))
  }

  function TakeDoor(s: State, i: nat): State
    requires i < |s.stages| && Grantable(s.door, i)
  {
    At(s, i, DoorHeld).(door := Mutex(Some(i), s.door.queue[1..]))
  }

  function LeaveFence(s: State, i: nat): State
    requires i < |s.work| == |s.stages|
  {
    At(s, i, Finished).(fence :=
      if s.work[i].Erase? then s.fence.(writer := None) else s.fence.(readers := s.fence.readers - {i}))
  }

  function LeaveStamp(s: State, i: nat): State
    requires i < |s.stages|
  {
    At(s, i, Leaving).(stamp := s.stamp.(owner := None))
  }

  function LeaveDoor(s: State, i: nat, stage: Stage): State
    requires i < |s.stages|
  {
    At(s, i, stage).(door := s.door.(owner := None))
  }

  function WriteRow(s: State, i: nat): State
    requires i < |s.work| == |s.stages| && s.work[i].Ingest?
  {
    At(s, i, RowWritten).(
      tables := Record(s.tables, s.work[i].conversation, s.next, AMessage(s.work[i].row)), next := s.next + 1)
  }

  /** The event's rows stand: a redelivery stores nothing at all. */
  predicate EventRecorded(t: Tables, conversation: int, origin: string) {
    exists a | a in t.joins :: t.joins[a].origin == Some(origin) && (conversation, a) in t.held
  }

  /** The next joiner's row. */
  function WriteJoiner(s: State, i: nat): State
    requires i < |s.work| == |s.stages| && s.work[i].Observe? && s.stages[i].Joining? && |s.stages[i].left| > 0
  {
    var left, event := s.stages[i].left, s.work[i].event;
    At(s, i, Joining(left[1..])).(
      tables := Record(s.tables, s.work[i].conversation, s.next, AJoin(event.NoticeOf(left[0]))), next := s.next + 1)
  }

  function TakeScan(s: State, i: nat): State
    requires i < |s.work| == |s.stages| && s.work[i].File?
  {
    var scan := Scan(s.tables, s.work[i].conversation, s.work[i].window, s.work[i].asked);
    At(s, i, Scanned(if scan.Ok? then Some(scan.value) else None))
  }

  function AppendFiled(s: State, i: nat, filed: Filed): State
    requires i < |s.work| == |s.stages| && s.work[i].File?
  {
    At(s, i, Scanned(None)).(tables := Append(s.tables, s.work[i].conversation, s.next, filed), next := s.next + 1)
  }

  function NullNext(s: State, i: nat): State
    requires i < |s.work| == |s.stages| && s.stages[i].Nulling?
    requires s.work[i].Ingest? && s.work[i].mirror.Some? && s.stages[i].done < MIRROR
  {
    var stage, c, named := s.stages[i], s.work[i].conversation, s.work[i].mirror.value;
    At(s, i, Nulling(stage.before, stage.found || Reached(s.tables, c, named, stage.done), stage.done + 1)).(
      tables := MirrorStep(s.tables, c, named, stage.done))
  }

  function EraseNext(s: State, i: nat): State
    requires i < |s.work| == |s.stages| && s.stages[i].Erasing?
    requires s.work[i].Erase? && s.stages[i].done < Whole(s.stages[i].conversations)
  {
    var stage := s.stages[i];
    At(s, i, Erasing(stage.before, stage.conversations, stage.done + 1)).(
      tables := ErasureStep(s.tables, s.work[i].person, stage.conversations, stage.done))
  }

  /** One process's next step; `None` while it waits for a lock, or has finished. */
  ghost function Step(order: Order, s: State, m: Move): Option<State> {
    if !(m.pid < |s.work| == |s.stages|) then None
    else
      var i, work := m.pid, s.work[m.pid];
      match s.stages[i]
      case Idle => Some(if order.DoorFirst? && work.File? then AskDoor(s, i) else AskFence(s, i))
      case FenceAsked => if FenceGrantable(s, i) then Some(TakeFence(s, i)) else None
      case FenceHeld =>
        (match work
         case Ingest(_, admitted, _, _, _) => Some(if admitted then AskStamp(s, i) else At(s, i, Leaving))
         case Observe(_, admitted, _) => Some(if admitted then AskStamp(s, i) else At(s, i, Leaving))
         case File(_, _, _) => Some(if order.DoorFirst? then TakeScan(s, i) else AskDoor(s, i))
         case Erase(person) =>
           if person !in s.tables.principals then Some(At(s, i, Leaving))
           else if Enumerates(m.plan, Plan(s.tables, person)) then Some(At(s, i, Erasing(s.tables, m.plan, 0)))
           else None)
      case StampAsked => if Grantable(s.stamp, i) then Some(TakeStamp(s, i)) else None
      case StampHeld =>
        if work.Observe? then
          Some(if EventRecorded(s.tables, work.conversation, work.event.origin) then LeaveStamp(s, i)
               else At(s, i, Joining(work.event.joiners)))
        else if !work.Ingest? then None
        else if !work.recorded then Some(LeaveStamp(s, i))
        else if work.mirror.Some? then Some(AskDoor(s, i))
        else Some(WriteRow(s, i))
      case DoorAsked => if Grantable(s.door, i) then Some(TakeDoor(s, i)) else None
      case DoorHeld =>
        if work.Ingest? then Some(At(s, i, Nulling(s.tables, false, 0)))
        else if work.File? then Some(if order.DoorFirst? then AskFence(s, i) else TakeScan(s, i))
        else None
      case Nulling(_, found, done) =>
        if !(work.Ingest? && work.mirror.Some?) then None
        else if done < MirrorLength(found, done) then Some(NullNext(s, i))
        else Some(LeaveDoor(s, i, MirrorDone))
      case MirrorDone => if work.Ingest? then Some(WriteRow(s, i)) else None
      case RowWritten => Some(LeaveStamp(s, i))
      case Joining(left) =>
        if !work.Observe? then None else Some(if |left| > 0 then WriteJoiner(s, i) else LeaveStamp(s, i))
      case Scanned(pending) =>
        if pending.Some? && work.File? then Some(AppendFiled(s, i, pending.value)) else Some(LeaveDoor(s, i, Leaving))
      case Erasing(_, conversations, done) =>
        if !work.Erase? then None
        else if done < Whole(conversations) then Some(EraseNext(s, i))
        else Some(At(s, i, Leaving))
      case Leaving => Some(LeaveFence(s, i))
      case Finished => None
  }

  ghost predicate Enabled(order: Order, s: State, m: Move) {
    Step(order, s, m).Some?
  }

  /** A move is taken only where it is enabled. */
  ghost function After(order: Order, s: State, m: Move): State {
    if Enabled(order, s, m) then Step(order, s, m).value else s
  }

  /** The state after a schedule. */
  ghost function Run(order: Order, s: State, moves: seq<Move>): State
    decreases |moves|
  {
    if |moves| == 0 then s else Run(order, After(order, s, moves[0]), moves[1..])
  }

  ghost predicate AllFinished(s: State) {
    forall i | 0 <= i < |s.stages| :: s.stages[i].Finished?
  }

  // ─── Who holds and who asks ────────────────────────────────────────────

  datatype Lock = FenceLock | StampLock | DoorLock

  predicate Holds(lock: Lock, work: Work, stage: Stage) {
    match lock
    case FenceLock => !(stage.Idle? || stage.FenceAsked? || stage.Finished?)
    case StampLock => stage.StampHeld? || stage.MirrorDone? || stage.RowWritten? || stage.Joining?
                      || (work.Ingest? && (stage.DoorAsked? || stage.DoorHeld? || stage.Nulling?))
    case DoorLock => stage.DoorHeld? || stage.Nulling? || stage.Scanned?
  }

  predicate Asks(lock: Lock, stage: Stage) {
    match lock
    case FenceLock => stage.FenceAsked?
    case StampLock => stage.StampAsked?
    case DoorLock => stage.DoorAsked?
  }

  /** Which stages a kind of work passes through. */
  predicate StageOf(work: Work, stage: Stage) {
    match stage
    case StampAsked => work.Ingest? || work.Observe?
    case StampHeld => work.Ingest? || work.Observe?
    case Joining(_) => work.Observe?
    case MirrorDone => work.Ingest?
    case RowWritten => work.Ingest?
    case Nulling(_, _, _) => work.Ingest? && work.mirror.Some?
    case DoorAsked => work.File? || (work.Ingest? && work.mirror.Some?)
    case DoorHeld => work.File? || (work.Ingest? && work.mirror.Some?)
    case Scanned(_) => work.File?
    case Erasing(_, _, _) => work.Erase?
    case _ => true
  }

  ghost predicate Shaped(s: State) {
    |s.work| == |s.stages| && forall i | 0 <= i < |s.stages| :: StageOf(s.work[i], s.stages[i])
  }

  ghost predicate Queued(s: State, lock: Lock, queue: seq<nat>) {
    && (forall k | 0 <= k < |queue| :: queue[k] < |s.stages| && Asks(lock, s.stages[queue[k]]))
    && (forall i: nat | i < |s.stages| && Asks(lock, s.stages[i]) :: i in queue)
    && (forall j, k | 0 <= j < k < |queue| :: queue[j] != queue[k])
  }

  ghost predicate Owned(s: State, lock: Lock, owner: Option<nat>)
    requires |s.work| == |s.stages|
  {
    && (forall i: nat | i < |s.stages| :: Holds(lock, s.work[i], s.stages[i]) <==> owner == Some(i))
    && (owner.Some? ==> owner.value < |s.stages|)
  }

  ghost predicate Fenced(s: State)
    requires |s.work| == |s.stages|
  {
    && (forall i: nat | i < |s.stages| ::
          i in s.fence.readers <==> Holds(FenceLock, s.work[i], s.stages[i]) && !s.work[i].Erase?)
    && (forall i: nat | i < |s.stages| ::
          s.fence.writer == Some(i) <==> Holds(FenceLock, s.work[i], s.stages[i]) && s.work[i].Erase?)
    && (forall i | i in s.fence.readers :: i < |s.stages|)
    && (s.fence.writer.Some? ==> s.fence.writer.value < |s.stages| && s.fence.readers == {})
  }

  ghost predicate Locked(s: State) {
    && Shaped(s) && Fenced(s) && Owned(s, StampLock, s.stamp.owner) && Owned(s, DoorLock, s.door.owner)
    && Queued(s, FenceLock, s.fence.queue) && Queued(s, StampLock, s.stamp.queue) && Queued(s, DoorLock, s.door.queue)
  }

  // ─── The locks are kept ────────────────────────────────────────────────

  /** `t` is `s` with one process's stage moved, its work unchanged. */
  ghost predicate Moved(s: State, t: State, i: nat) {
    && i < |s.stages| == |s.work| && t.work == s.work && |t.stages| == |s.stages|
    && t.stages == s.stages[i := t.stages[i]]
  }

  lemma QueueUnmoved(s: State, t: State, i: nat, lock: Lock, queue: seq<nat>)
    requires Moved(s, t, i) && Queued(s, lock, queue) && !Asks(lock, s.stages[i]) && !Asks(lock, t.stages[i])
    ensures Queued(t, lock, queue)
  {
  }

  lemma QueueJoined(s: State, t: State, i: nat, lock: Lock, queue: seq<nat>)
    requires Moved(s, t, i) && Queued(s, lock, queue) && !Asks(lock, s.stages[i]) && Asks(lock, t.stages[i])
    ensures Queued(t, lock, queue + [i])
  {
  }

  lemma QueueLeft(s: State, t: State, i: nat, lock: Lock, queue: seq<nat>)
    requires Moved(s, t, i) && Queued(s, lock, queue) && !Asks(lock, t.stages[i])
    requires |queue| > 0 && queue[0] == i
    ensures Queued(t, lock, queue[1..])
  {
  }

  lemma OwnerUnmoved(s: State, t: State, i: nat, lock: Lock, owner: Option<nat>)
    requires Moved(s, t, i) && Owned(s, lock, owner)
    requires Holds(lock, s.work[i], s.stages[i]) == Holds(lock, t.work[i], t.stages[i])
    ensures Owned(t, lock, owner)
  {
  }

  lemma FenceUnmoved(s: State, t: State, i: nat)
    requires Moved(s, t, i) && Fenced(s)
    requires t.fence.readers == s.fence.readers && t.fence.writer == s.fence.writer
    requires Holds(FenceLock, s.work[i], s.stages[i]) == Holds(FenceLock, t.work[i], t.stages[i])
    ensures Fenced(t)
  {
  }

  lemma AskingKeepsLocked(s: State, i: nat)
    requires Locked(s) && i < |s.stages|
    ensures s.stages[i].Idle? ==> Locked(AskFence(s, i))
    ensures s.stages[i].FenceHeld? && (s.work[i].Ingest? || s.work[i].Observe?) ==> Locked(AskStamp(s, i))
    ensures (s.stages[i].FenceHeld? && s.work[i].File?)
            || (s.stages[i].StampHeld? && s.work[i].Ingest? && s.work[i].mirror.Some?) ==>
              Locked(AskDoor(s, i))
  {
    hide Queued, Owned, Fenced;
    if s.stages[i].Idle? {
      var t := AskFence(s, i);
      FenceUnmoved(s, t, i);
      OwnerUnmoved(s, t, i, StampLock, s.stamp.owner);
      OwnerUnmoved(s, t, i, DoorLock, s.door.owner);
      QueueJoined(s, t, i, FenceLock, s.fence.queue);
      QueueUnmoved(s, t, i, StampLock, s.stamp.queue);
      QueueUnmoved(s, t, i, DoorLock, s.door.queue);
    }
    if s.stages[i].FenceHeld? && (s.work[i].Ingest? || s.work[i].Observe?) {
      var t := AskStamp(s, i);
      FenceUnmoved(s, t, i);
      OwnerUnmoved(s, t, i, StampLock, s.stamp.owner);
      OwnerUnmoved(s, t, i, DoorLock, s.door.owner);
      QueueUnmoved(s, t, i, FenceLock, s.fence.queue);
      QueueJoined(s, t, i, StampLock, s.stamp.queue);
      QueueUnmoved(s, t, i, DoorLock, s.door.queue);
    }
    if (s.stages[i].FenceHeld? && s.work[i].File?)
       || (s.stages[i].StampHeld? && s.work[i].Ingest? && s.work[i].mirror.Some?) {
      var t := AskDoor(s, i);
      FenceUnmoved(s, t, i);
      OwnerUnmoved(s, t, i, StampLock, s.stamp.owner);
      OwnerUnmoved(s, t, i, DoorLock, s.door.owner);
      QueueUnmoved(s, t, i, FenceLock, s.fence.queue);
      QueueUnmoved(s, t, i, StampLock, s.stamp.queue);
      QueueJoined(s, t, i, DoorLock, s.door.queue);
    }
  }

  lemma FenceTaken(s: State, i: nat)
    requires Locked(s) && i < |s.stages| && s.stages[i].FenceAsked? && FenceGrantable(s, i)
    ensures Fenced(TakeFence(s, i))
  {
  }

  lemma TakingFenceKeepsLocked(s: State, i: nat)
    requires Locked(s) && i < |s.stages| && s.stages[i].FenceAsked? && FenceGrantable(s, i)
    ensures Locked(TakeFence(s, i))
  {
    var t := TakeFence(s, i);
    FenceTaken(s, i);
    hide Fenced, Owned, Queued;
    OwnerUnmoved(s, t, i, StampLock, s.stamp.owner);
    OwnerUnmoved(s, t, i, DoorLock, s.door.owner);
    QueueLeft(s, t, i, FenceLock, s.fence.queue);
    QueueUnmoved(s, t, i, StampLock, s.stamp.queue);
    QueueUnmoved(s, t, i, DoorLock, s.door.queue);
  }

  lemma OwnerTook(s: State, t: State, i: nat, lock: Lock)
    requires Moved(s, t, i) && Owned(s, lock, None) && Holds(lock, t.work[i], t.stages[i])
    ensures Owned(t, lock, Some(i))
  {
  }

  lemma TakingStampKeepsLocked(s: State, i: nat)
    requires Locked(s) && i < |s.stages| && s.stages[i].StampAsked? && Grantable(s.stamp, i)
    ensures Locked(TakeStamp(s, i))
  {
    var t := TakeStamp(s, i);
    hide Fenced, Owned, Queued;
    FenceUnmoved(s, t, i);
    OwnerTook(s, t, i, StampLock);
    OwnerUnmoved(s, t, i, DoorLock, s.door.owner);
    QueueUnmoved(s, t, i, FenceLock, s.fence.queue);
    QueueLeft(s, t, i, StampLock, s.stamp.queue);
    QueueUnmoved(s, t, i, DoorLock, s.door.queue);
  }

  lemma TakingDoorKeepsLocked(s: State, i: nat)
    requires Locked(s) && i < |s.stages| && s.stages[i].DoorAsked? && Grantable(s.door, i)
    ensures Locked(TakeDoor(s, i))
  {
    var t := TakeDoor(s, i);
    hide Fenced, Owned, Queued;
    FenceUnmoved(s, t, i);
    OwnerUnmoved(s, t, i, StampLock, s.stamp.owner);
    OwnerTook(s, t, i, DoorLock);
    QueueUnmoved(s, t, i, FenceLock, s.fence.queue);
    QueueUnmoved(s, t, i, StampLock, s.stamp.queue);
    QueueLeft(s, t, i, DoorLock, s.door.queue);
  }

  lemma QueuesUnmoved(s: State, t: State, i: nat)
    requires Locked(s) && Moved(s, t, i) && forall lock: Lock :: !Asks(lock, s.stages[i]) && !Asks(lock, t.stages[i])
    ensures Queued(t, FenceLock, s.fence.queue) && Queued(t, StampLock, s.stamp.queue)
            && Queued(t, DoorLock, s.door.queue)
  {
  }

  lemma OwnerLeft(s: State, t: State, i: nat, lock: Lock, owner: Option<nat>)
    requires Moved(s, t, i) && Owned(s, lock, owner)
    requires Holds(lock, s.work[i], s.stages[i]) && !Holds(lock, t.work[i], t.stages[i])
    ensures Owned(t, lock, None)
  {
  }

  lemma LeavingFenceKeepsLocked(s: State, i: nat)
    requires Locked(s) && i < |s.stages| && s.stages[i].Leaving?
    ensures Locked(LeaveFence(s, i))
  {
    var t := LeaveFence(s, i);
    FenceLeft(s, i);
    hide Fenced, Owned, Queued;
    QueuesUnmoved(s, t, i);
    OwnerUnmoved(s, t, i, StampLock, s.stamp.owner);
    OwnerUnmoved(s, t, i, DoorLock, s.door.owner);
  }

  lemma FenceLeft(s: State, i: nat)
    requires Locked(s) && i < |s.stages| && s.stages[i].Leaving?
    ensures Fenced(LeaveFence(s, i))
  {
  }

  lemma LeavingStampKeepsLocked(s: State, i: nat)
    requires Locked(s) && i < |s.stages| && (s.stages[i].StampHeld? || s.stages[i].RowWritten? || s.stages[i].Joining?)
    ensures Locked(LeaveStamp(s, i))
  {
    var t := LeaveStamp(s, i);
    hide Fenced, Owned, Queued;
    QueuesUnmoved(s, t, i);
    FenceUnmoved(s, t, i);
    OwnerLeft(s, t, i, StampLock, s.stamp.owner);
    OwnerUnmoved(s, t, i, DoorLock, s.door.owner);
  }

  lemma LeavingDoorKeepsLocked(s: State, i: nat, stage: Stage)
    requires Locked(s) && i < |s.stages|
    requires (s.stages[i].Nulling? && stage == MirrorDone) || (s.stages[i].Scanned? && stage == Leaving)
    ensures Locked(LeaveDoor(s, i, stage))
  {
    var t := LeaveDoor(s, i, stage);
    hide Fenced, Owned, Queued;
    QueuesUnmoved(s, t, i);
    FenceUnmoved(s, t, i);
    OwnerUnmoved(s, t, i, StampLock, s.stamp.owner);
    OwnerLeft(s, t, i, DoorLock, s.door.owner);
  }

  /** A step that takes, asks for and leaves no lock. */
  lemma WorkingKeepsLocked(s: State, t: State, i: nat)
    requires Locked(s) && Moved(s, t, i) && StageOf(t.work[i], t.stages[i])
    requires t.fence == s.fence && t.stamp == s.stamp && t.door == s.door
    requires forall lock: Lock :: !Asks(lock, s.stages[i]) && !Asks(lock, t.stages[i])
    requires forall lock: Lock :: Holds(lock, s.work[i], s.stages[i]) == Holds(lock, t.work[i], t.stages[i])
    ensures Locked(t)
  {
    hide Fenced, Owned, Queued;
    QueuesUnmoved(s, t, i);
    FenceUnmoved(s, t, i);
    OwnerUnmoved(s, t, i, StampLock, s.stamp.owner);
    OwnerUnmoved(s, t, i, DoorLock, s.door.owner);
  }

  lemma WaitingStepKeepsLocked(s: State, m: Move)
    requires Locked(s) && Enabled(FenceFirst, s, m)
    requires var stage := s.stages[m.pid]; stage.Idle? || stage.FenceAsked? || stage.StampAsked? || stage.DoorAsked?
    ensures Locked(Step(FenceFirst, s, m).value)
  {
    hide Locked, Record, Append, Scan, ErasureStep, MirrorStep, Reached, Enumerates, Plan;
    match s.stages[m.pid]
    case Idle => AskingKeepsLocked(s, m.pid);
    case FenceAsked => TakingFenceKeepsLocked(s, m.pid);
    case StampAsked => TakingStampKeepsLocked(s, m.pid);
    case DoorAsked => TakingDoorKeepsLocked(s, m.pid);
  }

  lemma FenceHeldStepKeepsLocked(s: State, m: Move)
    requires Locked(s) && Enabled(FenceFirst, s, m) && s.stages[m.pid].FenceHeld?
    ensures Locked(Step(FenceFirst, s, m).value)
  {
    hide Locked, Record, Append, Scan, ErasureStep, MirrorStep, Reached, Enumerates, Plan;
    var i := m.pid;
    if s.work[i].File? || ((s.work[i].Ingest? || s.work[i].Observe?) && s.work[i].admitted) {
      AskingKeepsLocked(s, i);
    } else {
      WorkingKeepsLocked(s, Step(FenceFirst, s, m).value, i);
    }
  }

  lemma StampHeldStepKeepsLocked(s: State, m: Move)
    requires Locked(s) && Enabled(FenceFirst, s, m) && s.stages[m.pid].StampHeld?
    ensures Locked(Step(FenceFirst, s, m).value)
  {
    hide Locked, Record, Append, Scan, ErasureStep, MirrorStep, Reached, Enumerates, Plan;
    var i := m.pid;
    if s.work[i].Observe? {
      if EventRecorded(s.tables, s.work[i].conversation, s.work[i].event.origin) {
        LeavingStampKeepsLocked(s, i);
      } else {
        WorkingKeepsLocked(s, Step(FenceFirst, s, m).value, i);
      }
    } else if !s.work[i].recorded {
      LeavingStampKeepsLocked(s, i);
    } else if s.work[i].mirror.Some? {
      AskingKeepsLocked(s, i);
    } else {
      WorkingKeepsLocked(s, Step(FenceFirst, s, m).value, i);
    }
  }

  lemma DoorHeldStepKeepsLocked(s: State, m: Move)
    requires Locked(s) && Enabled(FenceFirst, s, m) && StageOf(s.work[m.pid], s.stages[m.pid])
    requires s.stages[m.pid].DoorHeld? || s.stages[m.pid].MirrorDone? || s.stages[m.pid].Erasing?
    ensures Locked(Step(FenceFirst, s, m).value)
  {
    hide Locked, Record, Append, Scan, ErasureStep, MirrorStep, Reached, Enumerates, Plan;
    WorkingKeepsLocked(s, Step(FenceFirst, s, m).value, m.pid);
  }

  lemma JoiningStepKeepsLocked(s: State, m: Move)
    requires Locked(s) && Enabled(FenceFirst, s, m) && s.stages[m.pid].Joining?
    ensures Locked(Step(FenceFirst, s, m).value)
  {
    hide Locked, Record, Append, Scan, ErasureStep, MirrorStep, Reached, Enumerates, Plan, EventRecorded;
    if |s.stages[m.pid].left| > 0 {
      WorkingKeepsLocked(s, Step(FenceFirst, s, m).value, m.pid);
    } else {
      LeavingStampKeepsLocked(s, m.pid);
    }
  }

  lemma NullingStepKeepsLocked(s: State, m: Move)
    requires Locked(s) && Enabled(FenceFirst, s, m) && s.stages[m.pid].Nulling?
    ensures Locked(Step(FenceFirst, s, m).value)
  {
    hide Locked, Record, Append, Scan, ErasureStep, MirrorStep, Reached, Enumerates, Plan;
    var stage := s.stages[m.pid];
    if stage.done < MirrorLength(stage.found, stage.done) {
      WorkingKeepsLocked(s, Step(FenceFirst, s, m).value, m.pid);
    } else {
      LeavingDoorKeepsLocked(s, m.pid, MirrorDone);
    }
  }

  lemma ScannedStepKeepsLocked(s: State, m: Move)
    requires Locked(s) && Enabled(FenceFirst, s, m)
             && StageOf(s.work[m.pid], s.stages[m.pid]) && s.stages[m.pid].Scanned?
    ensures Locked(Step(FenceFirst, s, m).value)
  {
    hide Locked, Record, Append, Scan, ErasureStep, MirrorStep, Reached, Enumerates, Plan;
    if s.stages[m.pid].pending.Some? {
      WorkingKeepsLocked(s, Step(FenceFirst, s, m).value, m.pid);
    } else {
      LeavingDoorKeepsLocked(s, m.pid, Leaving);
    }
  }

  lemma StepKeepsLocked(s: State, m: Move)
    requires Locked(s) && Enabled(FenceFirst, s, m)
    ensures Locked(Step(FenceFirst, s, m).value)
  {
    assert StageOf(s.work[m.pid], s.stages[m.pid]) && !s.stages[m.pid].Finished?;
    match s.stages[m.pid]
    case RowWritten => LeavingStampKeepsLocked(s, m.pid);
    case Leaving => LeavingFenceKeepsLocked(s, m.pid);
    case FenceHeld => FenceHeldStepKeepsLocked(s, m);
    case StampHeld => StampHeldStepKeepsLocked(s, m);
    case DoorHeld => DoorHeldStepKeepsLocked(s, m);
    case Nulling(_, _, _) => NullingStepKeepsLocked(s, m);
    case Joining(_) => JoiningStepKeepsLocked(s, m);
    case MirrorDone => DoorHeldStepKeepsLocked(s, m);
    case Scanned(_) => ScannedStepKeepsLocked(s, m);
    case Erasing(_, _, _) => DoorHeldStepKeepsLocked(s, m);
    case _ => WaitingStepKeepsLocked(s, m);
  }

  // ─── No deadlock ───────────────────────────────────────────────────────

  ghost predicate CanMove(s: State, i: nat) {
    exists plan: seq<int> :: Enabled(FenceFirst, s, Move(i, plan))
  }

  /** A process waiting for no lock can always move. */
  lemma NotWaitingMoves(s: State, i: nat)
    requires Shaped(s) && i < |s.stages| && !s.stages[i].Finished?
    requires forall lock: Lock :: !Asks(lock, s.stages[i])
    ensures CanMove(s, i)
  {
    var plan := InSomeOrder(if s.work[i].Erase? then Plan(s.tables, s.work[i].person) else {});
    assert StageOf(s.work[i], s.stages[i]);
    assert !Asks(FenceLock, s.stages[i]) && !Asks(StampLock, s.stages[i]) && !Asks(DoorLock, s.stages[i]);
    assert Enabled(FenceFirst, s, Move(i, plan));
  }

  lemma QueuedIsGranted(s: State, i: nat)
    requires Shaped(s) && i < |s.stages|
    ensures s.stages[i].FenceAsked? && FenceGrantable(s, i) ==> CanMove(s, i)
    ensures s.stages[i].StampAsked? && Grantable(s.stamp, i) ==> CanMove(s, i)
    ensures s.stages[i].DoorAsked? && Grantable(s.door, i) ==> CanMove(s, i)
  {
    if (s.stages[i].FenceAsked? && FenceGrantable(s, i)) || (s.stages[i].StampAsked? && Grantable(s.stamp, i))
       || (s.stages[i].DoorAsked? && Grantable(s.door, i)) {
      assert Enabled(FenceFirst, s, Move(i, []));
    }
  }

  /** Whoever holds or waits for the door, somebody can move. */
  lemma DoorMoves(s: State)
    requires Locked(s) && (s.door.owner.Some? || |s.door.queue| > 0)
    ensures exists i: nat :: CanMove(s, i)
  {
    if s.door.owner.Some? {
      NotWaitingMoves(s, s.door.owner.value);
    } else {
      QueuedIsGranted(s, s.door.queue[0]);
    }
  }

  lemma StampMoves(s: State)
    requires Locked(s) && (s.stamp.owner.Some? || |s.stamp.queue| > 0)
    ensures exists i: nat :: CanMove(s, i)
  {
    if s.stamp.owner.None? {
      QueuedIsGranted(s, s.stamp.queue[0]);
    } else if s.stages[s.stamp.owner.value].DoorAsked? {
      DoorMoves(s);
    } else {
      NotWaitingMoves(s, s.stamp.owner.value);
    }
  }

  /** A process past the fence moves, or somebody inside the inner locks does. */
  lemma InsideMoves(s: State, i: nat)
    requires Locked(s) && i < |s.stages| && Holds(FenceLock, s.work[i], s.stages[i])
    ensures exists j: nat :: CanMove(s, j)
  {
    if s.stages[i].StampAsked? {
      StampMoves(s);
    } else if s.stages[i].DoorAsked? {
      DoorMoves(s);
    } else {
      NotWaitingMoves(s, i);
    }
  }

  /** In every state the locks keep, some process can move until all have finished,
      for any number of ingestions, observations, filings and erasures. */
  lemma NeverStuck(s: State)
    requires Locked(s) && !AllFinished(s)
    ensures exists i: nat :: CanMove(s, i)
  {
    var i: nat :| i < |s.stages| && !s.stages[i].Finished?;
    if s.stages[i].Idle? {
      NotWaitingMoves(s, i);
    } else if !s.stages[i].FenceAsked? {
      InsideMoves(s, i);
    } else if s.fence.writer.Some? {
      InsideMoves(s, s.fence.writer.value);
    } else if s.fence.readers != {} {
      var j :| j in s.fence.readers;
      InsideMoves(s, j);
    } else {
      QueuedIsGranted(s, s.fence.queue[0]);
    }
  }

  // ─── What the writing steps are ────────────────────────────────────────

  lemma NullingStep(s: State, m: Move)
    requires Shaped(s) && Enabled(FenceFirst, s, m) && s.stages[m.pid].Nulling?
    ensures var i, stage := m.pid, s.stages[m.pid];
            && s.work[i].Ingest? && s.work[i].mirror.Some?
            && Step(FenceFirst, s, m).value ==
               if stage.done < MirrorLength(stage.found, stage.done) then NullNext(s, i)
               else LeaveDoor(s, i, MirrorDone)
  {
  }

  lemma ErasingStep(s: State, m: Move)
    requires Shaped(s) && Enabled(FenceFirst, s, m) && s.stages[m.pid].Erasing?
    ensures var i, stage := m.pid, s.stages[m.pid];
            && s.work[i].Erase?
            && Step(FenceFirst, s, m).value ==
               if stage.done < Whole(stage.conversations) then EraseNext(s, i) else At(s, i, Leaving)
  {
    hide EraseNext;
    assert StageOf(s.work[m.pid], s.stages[m.pid]);
  }

  lemma DoorStep(s: State, m: Move)
    requires Shaped(s) && Enabled(FenceFirst, s, m) && (s.stages[m.pid].DoorHeld? || s.stages[m.pid].Scanned?)
    ensures var i, stage := m.pid, s.stages[m.pid];
            && (s.work[i].Ingest? || s.work[i].File?)
            && (stage.Scanned? ==> s.work[i].File?)
            && Step(FenceFirst, s, m).value ==
               if stage.DoorHeld? && s.work[i].Ingest? then At(s, i, Nulling(s.tables, false, 0))
               else if stage.DoorHeld? then TakeScan(s, i)
               else if stage.pending.Some? then AppendFiled(s, i, stage.pending.value)
               else LeaveDoor(s, i, Leaving)
  {
  }

  // ─── The long passes only fade ─────────────────────────────────────────

  lemma MessagePassFades(t: Tables, conversation: int, named: string)
    ensures Faded(t, MessageNamedEmptied(t, conversation, named))
  {
  }

  lemma EventPassFades(t: Tables, conversation: int, named: string)
    ensures Faded(t, EventNamedEmptied(t, conversation, named))
  {
  }

  lemma ReplyPassFades(t: Tables, conversation: int, named: string)
    ensures Faded(t, ReplyReferencesNulled(t, conversation, named))
  {
  }

  lemma ReportPassFades(t: Tables, conversation: int, named: string)
    ensures Faded(t, ReportReferencesNulled(t, conversation, named))
  {
  }

  lemma MarkPassFades(t: Tables, conversation: int, named: string)
    ensures Faded(t, MarkReferencesNulled(t, conversation, named))
  {
  }

  lemma MirrorStepFades(t: Tables, conversation: int, named: string, k: nat)
    requires k < MIRROR
    ensures Faded(t, MirrorStep(t, conversation, named, k))
  {
    hide Faded;
    MessagePassFades(t, conversation, named);
    EventPassFades(t, conversation, named);
    ReplyPassFades(t, conversation, named);
    ReportPassFades(t, conversation, named);
    MarkPassFades(t, conversation, named);
  }

  lemma ReleaseStepFades(t: Tables, conversation: int)
    ensures Faded(t, Unmapped(t, conversation)) && Faded(t, ConversationDeleted(t, conversation))
  {
    ReleasingFades(t, Unmapped(t, conversation));
    ReleasingFades(t, ConversationDeleted(t, conversation));
  }

  lemma ErasureStepFades(t: Tables, person: int, conversations: seq<int>, k: nat)
    requires k < Whole(conversations)
    ensures Faded(t, ErasureStep(t, person, conversations, k))
  {
    if k < PASSES {
      PassSteps(t, person, k);
    } else if k < PASSES + 2 * |conversations| {
      ReleaseStepFades(t, conversations[(k - PASSES) / 2]);
    } else if k == PASSES + 2 * |conversations| {
      CollectingFades(t);
    } else {
      ReleasingFades(t, IdentityConcluded(t, person));
    }
    hide Faded, Pass, OrphansCollected, Unmapped, ConversationDeleted;
  }

  // ─── Every schedule ends ───────────────────────────────────────────────

  function Rank(stage: Stage): nat {
    match stage
    case Idle => 13
    case FenceAsked => 12
    case FenceHeld => 11
    case StampAsked => 10
    case StampHeld => 9
    case DoorAsked => 8
    case DoorHeld => 7
    case Nulling(_, _, _) => 6
    case MirrorDone => 5
    case Scanned(pending) => if pending.Some? then 4 else 3
    case RowWritten => 2
    case Erasing(_, _, _) => 2
    case Joining(_) => 2
    case Leaving => 1
    case Finished => 0
  }

  /** What is left inside one stage. */
  function Left(stage: Stage): nat {
    match stage
    case Nulling(_, _, done) => if done < MIRROR then MIRROR - done else 0
    case Erasing(_, conversations, done) => if done < Whole(conversations) then Whole(conversations) - done else 0
    case Joining(left) => |left|
    case _ => 0
  }

  function Ranks(stages: seq<Stage>): nat {
    if |stages| == 0 then 0 else Rank(stages[0]) + Ranks(stages[1..])
  }

  function Lefts(stages: seq<Stage>): nat {
    if |stages| == 0 then 0 else Left(stages[0]) + Lefts(stages[1..])
  }

  lemma {:induction false} MovingRanks(stages: seq<Stage>, i: nat, stage: Stage)
    requires i < |stages|
    ensures Ranks(stages[i := stage]) - Rank(stage) == Ranks(stages) - Rank(stages[i])
    ensures Lefts(stages[i := stage]) - Left(stage) == Lefts(stages) - Left(stages[i])
  {
    if i > 0 {
      MovingRanks(stages[1..], i - 1, stage);
      assert stages[i := stage][1..] == stages[1..][i - 1 := stage];
    } else {
      assert stages[i := stage][1..] == stages[1..];
    }
  }

  /** One process's stage moves, and moves nearer to its end. */
  ghost predicate Nears(s: State, t: State, i: nat) {
    && Moved(s, t, i)
    && (Rank(t.stages[i]) < Rank(s.stages[i])
        || (Rank(t.stages[i]) == Rank(s.stages[i]) && Left(t.stages[i]) < Left(s.stages[i])))
  }

  lemma LockStageDescends(s: State, m: Move)
    requires Shaped(s) && Enabled(FenceFirst, s, m)
    requires var stage := s.stages[m.pid];
             || stage.Idle? || stage.FenceAsked? || stage.StampAsked?
             || stage.DoorAsked? || stage.RowWritten? || stage.Leaving?
    ensures Nears(s, Step(FenceFirst, s, m).value, m.pid)
  {
    hide Record, Append, Scan, ErasureStep, MirrorStep, Reached,
         FenceGrantable, Grantable, Enumerates, Plan, EventRecorded;
  }

  lemma HeldStageDescends(s: State, m: Move)
    requires Shaped(s) && Enabled(FenceFirst, s, m)
    requires var stage := s.stages[m.pid]; stage.FenceHeld? || stage.StampHeld? || stage.MirrorDone? || stage.Joining?
    ensures Nears(s, Step(FenceFirst, s, m).value, m.pid)
  {
    hide Record, Append, Scan, ErasureStep, MirrorStep, Reached,
         FenceGrantable, Grantable, Enumerates, Plan, EventRecorded;
    assert StageOf(s.work[m.pid], s.stages[m.pid]);
  }

  lemma PassStageDescends(s: State, m: Move)
    requires Shaped(s) && Enabled(FenceFirst, s, m) && (s.stages[m.pid].Nulling? || s.stages[m.pid].Erasing?)
    ensures Nears(s, Step(FenceFirst, s, m).value, m.pid)
  {
    if s.stages[m.pid].Nulling? {
      NullingStep(s, m);
    } else {
      ErasingStep(s, m);
    }
    hide Step, Enabled, Shaped, ErasureStep, MirrorStep, Reached;
  }

  lemma DoorStageDescends(s: State, m: Move)
    requires Shaped(s) && Enabled(FenceFirst, s, m) && (s.stages[m.pid].DoorHeld? || s.stages[m.pid].Scanned?)
    ensures Nears(s, Step(FenceFirst, s, m).value, m.pid)
  {
    DoorStep(s, m);
    hide Step, Enabled, Shaped, Scan, Append;
  }

  lemma StageDescends(s: State, m: Move)
    requires Shaped(s) && Enabled(FenceFirst, s, m)
    ensures Nears(s, Step(FenceFirst, s, m).value, m.pid)
  {
    assert !s.stages[m.pid].Finished?;
    hide Step, Enabled, Shaped, Nears;
    match s.stages[m.pid]
    case FenceHeld => HeldStageDescends(s, m);
    case StampHeld => HeldStageDescends(s, m);
    case MirrorDone => HeldStageDescends(s, m);
    case Joining(_) => HeldStageDescends(s, m);
    case DoorHeld => DoorStageDescends(s, m);
    case Scanned(_) => DoorStageDescends(s, m);
    case Nulling(_, _, _) => PassStageDescends(s, m);
    case Erasing(_, _, _) => PassStageDescends(s, m);
    case _ => LockStageDescends(s, m);
  }

  lemma StepDescends(s: State, m: Move)
    requires Shaped(s) && Enabled(FenceFirst, s, m)
    ensures var t := Step(FenceFirst, s, m).value;
            || Ranks(t.stages) < Ranks(s.stages)
            || (Ranks(t.stages) == Ranks(s.stages) && Lefts(t.stages) < Lefts(s.stages))
  {
    StageDescends(s, m);
    var t := Step(FenceFirst, s, m).value;
    hide Step, Enabled, Shaped;
    MovingRanks(s.stages, m.pid, t.stages[m.pid]);
  }

  /** Whatever is scheduled, in whatever order, all processes finish: somebody can move
      until then, and every move brings the end nearer. */
  ghost predicate EveryScheduleFinishes(s: State)
    requires Locked(s)
    decreases Ranks(s.stages), Lefts(s.stages)
  {
    || AllFinished(s)
    || (&& (exists i: nat :: CanMove(s, i))
        && forall m: Move | Enabled(FenceFirst, s, m) ::
          (StepDescends(s, m); StepKeepsLocked(s, m); EveryScheduleFinishes(Step(FenceFirst, s, m).value)))
  }

  lemma {:induction false} AllFinish(s: State)
    requires Locked(s)
    ensures EveryScheduleFinishes(s)
    decreases Ranks(s.stages), Lefts(s.stages)
  {
    if !AllFinished(s) {
      NeverStuck(s);
      forall m: Move | Enabled(FenceFirst, s, m)
        ensures Locked(Step(FenceFirst, s, m).value) && EveryScheduleFinishes(Step(FenceFirst, s, m).value)
      {
        StepDescends(s, m);
        StepKeepsLocked(s, m);
        AllFinish(Step(FenceFirst, s, m).value);
      }
    }
  }

  /** From the start, for any number of ingestions, observations, filings and erasures. */
  lemma NoRunEverDeadlocks(work: seq<Work>, tables: Tables, next: int)
    ensures Locked(Start(work, tables, next)) && EveryScheduleFinishes(Start(work, tables, next))
  {
    assert Locked(Start(work, tables, next));
    AllFinish(Start(work, tables, next));
  }

  // ─── The forbidden order ───────────────────────────────────────────────

  ghost predicate Stuck(order: Order, s: State) {
    !AllFinished(s) && forall m: Move :: !Enabled(order, s, m)
  }

  /** The schedule into the cycle: the filing takes the door; the ingestion takes the
      fence and the stamp and asks for the door; the erasure queues as a writer; the
      filing asks for the fence behind it. */
  function IntoTheCycle(): seq<Move> {
    [Move(0, []), Move(0, []), Move(1, []), Move(1, []),
     Move(1, []), Move(1, []), Move(1, []), Move(2, []), Move(0, [])]
  }

  /** The door is taken, the fence is taken, and the ingestion holds the stamp. */
  function Halfway(work: seq<Work>, tables: Tables, next: int): State {
    State(work, [DoorHeld, StampHeld, Idle], Fence({1}, None, []), Mutex(Some(1), []), Mutex(Some(0), []), tables, next)
  }

  function Cycle(work: seq<Work>, tables: Tables, next: int): State {
    State(work, [FenceAsked, DoorAsked, FenceAsked],
          Fence({1}, None, [2, 0]), Mutex(Some(1), []), Mutex(Some(0), [1]), tables, next)
  }

  ghost predicate CanClose(work: seq<Work>) {
    && |work| == 3 && work[0].File? && work[2].Erase?
    && work[1].Ingest? && work[1].admitted && work[1].recorded && work[1].mirror.Some?
  }

  function Quarter(work: seq<Work>, tables: Tables, next: int): State {
    State(work, [DoorHeld, FenceAsked, Idle], Fence({}, None, [1]), Mutex(None, []), Mutex(Some(0), []), tables, next)
  }

  lemma QuarterSteps(work: seq<Work>, tables: Tables, next: int)
    requires CanClose(work)
    ensures var s := Start(work, tables, next);
            && Step(DoorFirst, s, Move(0, [])) == Some(AskDoor(s, 0))
            && Step(DoorFirst, AskDoor(s, 0), Move(0, [])) == Some(TakeDoor(AskDoor(s, 0), 0))
            && Step(DoorFirst, TakeDoor(AskDoor(s, 0), 0), Move(1, [])) == Some(Quarter(work, tables, next))
  {
    var s := Start(work, tables, next);
    assert s.stages == [Idle, Idle, Idle];
    var s1 := AskDoor(s, 0);
    assert s1.door.queue == [0];
    var s2 := TakeDoor(s1, 0);
    assert s2.door.queue == [] && s2.stages[1].Idle?;
    var s3 := AskFence(s2, 1);
    assert s3.fence.queue == [1] && s3.stages == [DoorHeld, FenceAsked, Idle];
  }

  lemma QuarterIsReached(work: seq<Work>, tables: Tables, next: int)
    requires CanClose(work)
    ensures Run(DoorFirst, Start(work, tables, next), IntoTheCycle()) ==
            Run(DoorFirst, Quarter(work, tables, next), IntoTheCycle()[3..])
  {
    QuarterSteps(work, tables, next);
    var moves := IntoTheCycle();
    hide Run, Step, CanClose, Quarter, TakeDoor;
    var s0 := Start(work, tables, next);
    assert |s0.stages| == 3;
    var s1 := AskDoor(s0, 0);
    assert Grantable(s1.door, 0);
    var s2 := TakeDoor(s1, 0);
    RunSteps(s0, s1, moves, 0);
    RunSteps(s1, s2, moves, 1);
    RunSteps(s2, Quarter(work, tables, next), moves, 2);
    assert moves[0..] == moves;
  }

  lemma HalfwayIsReached(work: seq<Work>, tables: Tables, next: int)
    requires CanClose(work)
    ensures Run(DoorFirst, Quarter(work, tables, next), IntoTheCycle()[3..]) ==
            Run(DoorFirst, Halfway(work, tables, next), IntoTheCycle()[6..])
  {
    var moves := IntoTheCycle();
    var s3 := Quarter(work, tables, next);
    var s4 := TakeFence(s3, 1);
    var s5 := AskStamp(s4, 1);
    var s6 := TakeStamp(s5, 1);
    assert s6 == Halfway(work, tables, next) by { assert s6.stages == [DoorHeld, StampHeld, Idle]; }
    hide Run;
    RunSteps(s3, s4, moves, 3);
    RunSteps(s4, s5, moves, 4);
    RunSteps(s5, s6, moves, 5);
  }

  lemma CycleIsReached(work: seq<Work>, tables: Tables, next: int)
    requires CanClose(work)
    ensures Run(DoorFirst, Halfway(work, tables, next), IntoTheCycle()[6..]) == Cycle(work, tables, next)
  {
    var moves := IntoTheCycle();
    var s6 := Halfway(work, tables, next);
    var s7 := AskDoor(s6, 1);
    var s8 := AskFence(s7, 2);
    var s9 := AskFence(s8, 0);
    assert s9 == Cycle(work, tables, next) by { assert s9.stages == [FenceAsked, DoorAsked, FenceAsked]; }
    assert Run(DoorFirst, s9, moves[9..]) == s9;
    hide Run;
    RunSteps(s6, s7, moves, 6);
    RunSteps(s7, s8, moves, 7);
    RunSteps(s8, s9, moves, 8);
  }

  lemma CycleIsStuck(work: seq<Work>, tables: Tables, next: int)
    requires CanClose(work)
    ensures Stuck(DoorFirst, Cycle(work, tables, next))
  {
    var s := Cycle(work, tables, next);
    assert !s.stages[0].Finished?;
    forall m: Move ensures !Enabled(DoorFirst, s, m) {
      if m.pid < 3 {
        assert m.pid == 0 || m.pid == 1 || m.pid == 2;
      }
    }
  }

  /** Taking the door before the fence deadlocks: any filing, any ingestion with a
      deletion command and any erasure can close the cycle. */
  lemma DoorFirstDeadlocks(work: seq<Work>, tables: Tables, next: int)
    requires CanClose(work)
    ensures Stuck(DoorFirst, Run(DoorFirst, Start(work, tables, next), IntoTheCycle()))
  {
    QuarterIsReached(work, tables, next);
    HalfwayIsReached(work, tables, next);
    CycleIsReached(work, tables, next);
    CycleIsStuck(work, tables, next);
    hide Stuck, Run, Start, Quarter, Halfway, Cycle, IntoTheCycle;
  }

  lemma RunSteps(s: State, t: State, moves: seq<Move>, k: nat)
    requires k < |moves| && Step(DoorFirst, s, moves[k]) == Some(t)
    ensures Run(DoorFirst, s, moves[k..]) == Run(DoorFirst, t, moves[k + 1..])
  {
  }

  // ─── One process by itself ─────────────────────────────────────────────

  /** The one process moves `n` times, an erasure reading its plan in one order. */
  function Alone(n: nat, plan: seq<int>): seq<Move> {
    seq(n, _ => Move(0, plan))
  }

  lemma AloneByFirst(s: State, t: State, n: nat, plan: seq<int>)
    requires n > 0 && Step(FenceFirst, s, Move(0, plan)) == Some(t)
    ensures Run(FenceFirst, s, Alone(n, plan)) == Run(FenceFirst, t, Alone(n - 1, plan))
  {
    assert Alone(n, plan)[1..] == Alone(n - 1, plan);
  }
}
