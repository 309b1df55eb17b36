/** The command board: result and sync rendezvous between the worker and the waiting calls. */
module Board {
  import opened Commands

  const NOT_FOUND_IN_BUFFER: string := "NOT FOUND IN BUFFER"

  /** A Go channel of capacity one. */
  datatype Channel<+T> = Empty | Full(value: T)

  /** The fields the board's mutex protects. */
  datatype Tables = Tables(
    erNotifiers: map<ProposeId, Channel<string>>,
    asrNotifiers: map<ProposeId, Channel<()>>,
    erBuffer: map<ProposeId, string>,
    asrBuffer: set<ProposeId>)

  const NoTables := Tables(map[], map[], map[], {})

  // ---------------------------------------------------------------- critical sections

  predicate ErRoom(t: Tables, id: ProposeId) {
    id in t.erNotifiers ==> t.erNotifiers[id].Empty?
  }

  predicate AsrRoom(t: Tables, id: ProposeId) {
    id in t.asrNotifiers ==> t.asrNotifiers[id].Empty?
  }

  /** InsertEr, when the channel it sends to has room. */
  function Insert(t: Tables, id: ProposeId, result: string): Tables {
    t.(erBuffer := t.erBuffer[id := result],
       erNotifiers := if id in t.erNotifiers then t.erNotifiers[id := Full(result)] else t.erNotifiers)
  }

  /** NotifyAsr, when the channel it sends to has room. */
  function Notify(t: Tables, id: ProposeId): Tables {
    t.(asrBuffer := t.asrBuffer + {id},
       asrNotifiers := if id in t.asrNotifiers then t.asrNotifiers[id := Full(())] else t.asrNotifiers)
  }

  /** WaitForEr up to its return or its channel receive. */
  function AwaitEr(t: Tables, id: ProposeId): Tables {
    if id in t.erBuffer || id in t.erNotifiers then t
    else t.(erNotifiers := t.erNotifiers[id := Empty])
  }

  function TakeEr(t: Tables, id: ProposeId): Tables {
    t.(erNotifiers := t.erNotifiers[id := Empty])
  }

  predicate Settled(t: Tables, id: ProposeId) {
    id in t.asrBuffer && id in t.erBuffer
  }

  /** The deferred deletions of WaitForAsr. */
  function Forget(t: Tables, id: ProposeId): Tables {
    t.(asrBuffer := t.asrBuffer - {id}, erBuffer := t.erBuffer - {id})
  }

  /** WaitForAsr up to its return or its channel receive. */
  function AwaitAsr(t: Tables, id: ProposeId): Tables {
    if Settled(t, id) then Forget(t, id)
    else if id in t.asrNotifiers then t
    else t.(asrNotifiers := t.asrNotifiers[id := Empty])
  }

  function TakeAsr(t: Tables, id: ProposeId): Tables {
    t.(asrNotifiers := t.asrNotifiers[id := Empty])
  }

  function AsrAnswer(t: Tables, id: ProposeId): string {
    if id in t.erBuffer then t.erBuffer[id] else NOT_FOUND_IN_BUFFER
  }

  /** The board object; each method is one critical section. A false `sent` means the section is stuck in its send. */
  class CommandBoard {
    var erNotifiers: map<ProposeId, Channel<string>>
    var asrNotifiers: map<ProposeId, Channel<()>>
    var erBuffer: map<ProposeId, string>
    var asrBuffer: set<ProposeId>

    function View(): Tables
      reads this
    {
      Tables(erNotifiers, asrNotifiers, erBuffer, asrBuffer)
    }

    constructor ()
      ensures View() == NoTables
    {
      erNotifiers, asrNotifiers, erBuffer, asrBuffer := map[], map[], map[], {};
    }

    method InsertEr(id: ProposeId, result: string) returns (sent: bool)
      modifies this
      ensures sent == ErRoom(old(View()), id)
      ensures sent ==> View() == Insert(old(View()), id, result)
      ensures !sent ==> View() == old(View()).(erBuffer := old(erBuffer)[id := result])
    {
      erBuffer := erBuffer[id := result];
      sent := NotifyEr(id, result);
    }

    method NotifyEr(id: ProposeId, result: string) returns (sent: bool)
      modifies this`erNotifiers
      ensures sent == ErRoom(old(View()), id)
      ensures erNotifiers ==
              if sent && id in old(erNotifiers) then old(erNotifiers)[id := Full(result)] else old(erNotifiers)
    {
      sent := true;
      if id in erNotifiers {
        if erNotifiers[id].Full? {
          return false;
        }
        erNotifiers := erNotifiers[id := Full(result)];
      }
    }

    method NotifyAsr(id: ProposeId) returns (sent: bool)
      modifies this
      ensures sent == AsrRoom(old(View()), id)
      ensures sent ==> View() == Notify(old(View()), id)
      ensures !sent ==> View() == old(View()).(asrBuffer := old(asrBuffer) + {id})
    {
      asrBuffer := asrBuffer + {id};
      sent := true;
      if id in asrNotifiers {
        if asrNotifiers[id].Full? {
          return false;
        }
        asrNotifiers := asrNotifiers[id := Full(())];
      }
    }

    method EnterWaitForEr(id: ProposeId) returns (result: Option<string>)
      modifies this
      ensures View() == AwaitEr(old(View()), id)
      ensures result == if id in old(erBuffer) then Some(old(erBuffer)[id]) else None
    {
      if id in erBuffer {
        return Some(erBuffer[id]);
      }
      if id !in erNotifiers {
        erNotifiers := erNotifiers[id := Empty];
      }
      return None;
    }

    method EnterWaitForAsr(id: ProposeId) returns (result: Option<string>)
      modifies this
      ensures View() == AwaitAsr(old(View()), id)
      ensures result == if Settled(old(View()), id) then Some(old(erBuffer)[id]) else None
    {
      if id in asrBuffer && id in erBuffer {
        result := Some(erBuffer[id]);
        erBuffer := erBuffer - {id};
        asrBuffer := asrBuffer - {id};
        return;
      }
      if id !in asrNotifiers {
        asrNotifiers := asrNotifiers[id := Empty];
      }
      return None;
    }

    method LeaveWaitForAsr(id: ProposeId) returns (result: string)
      modifies this
      ensures View() == Forget(old(View()), id)
      ensures result == AsrAnswer(old(View()), id)
    {
      result := if id in erBuffer then erBuffer[id] else NOT_FOUND_IN_BUFFER;
      erBuffer := erBuffer - {id};
      asrBuffer := asrBuffer - {id};
    }
  }

  // ---------------------------------------------------------------- the board with its callers

  /** One call of WaitForEr or WaitForAsr. */
  datatype Waiter = Waiter(id: ProposeId, call: nat)

  /** late: the call blocked after its id's result was inserted and its WaitForAsr had completed. */
  datatype ErPhase = ErBlocked(late: bool) | ErGot(result: string)

  /** late: the call blocked after its id's NotifyAsr. AsrReceived: past the receive, lock not yet retaken. */
  datatype AsrPhase = AsrBlocked(late: bool) | AsrReceived | AsrGot(result: string)

  /** Tables, calls, and the history of what happened for each id. */
  datatype System = System(
    tables: Tables,
    er: map<Waiter, ErPhase>,
    asr: map<Waiter, AsrPhase>,
    inserted: map<ProposeId, set<string>>,  // results inserted
    notified: set<ProposeId>,               // NotifyAsr happened
    called: set<ProposeId>,                 // WaitForEr was called
    waited: set<ProposeId>,                 // WaitForAsr was called
    synced: set<ProposeId>)                 // WaitForAsr has completed

  const Quiet := System(NoTables, map[], map[], map[], {}, {}, {}, {})

  datatype Event =
    | InsertEr(id: ProposeId, result: string)
    | NotifyAsr(id: ProposeId)
    | EnterEr(w: Waiter)
    | ReceiveEr(w: Waiter)
    | EnterAsr(w: Waiter)
    | ReceiveAsr(w: Waiter)
    | FinishAsr(w: Waiter)

  predicate WasInserted(s: System, id: ProposeId, r: string) {
    id in s.inserted && r in s.inserted[id]
  }

  predicate CanStep(s: System, e: Event) {
    match e
    case InsertEr(id, _) => ErRoom(s.tables, id)
    case NotifyAsr(id) => AsrRoom(s.tables, id)
    case EnterEr(w) => w !in s.er
    case ReceiveEr(w) =>
      w in s.er && s.er[w].ErBlocked? && w.id in s.tables.erNotifiers && s.tables.erNotifiers[w.id].Full?
    case EnterAsr(w) => w !in s.asr
    case ReceiveAsr(w) =>
      w in s.asr && s.asr[w].AsrBlocked? && w.id in s.tables.asrNotifiers && s.tables.asrNotifiers[w.id].Full?
    case FinishAsr(w) => w in s.asr && s.asr[w].AsrReceived?
  }

  function Inserted(s: System, id: ProposeId, r: string): System {
    s.(tables := Insert(s.tables, id, r),
       inserted := s.inserted[id := (if id in s.inserted then s.inserted[id] else {}) + {r}])
  }

  function Notified(s: System, id: ProposeId): System {
    s.(tables := Notify(s.tables, id), notified := s.notified + {id})
  }

  function ErEntered(s: System, w: Waiter): System {
    s.(tables := AwaitEr(s.tables, w.id),
       called := s.called + {w.id},
       er := s.er[w := if w.id in s.tables.erBuffer then ErGot(s.tables.erBuffer[w.id])
                       else ErBlocked(w.id in s.synced && w.id in s.inserted)])
  }

  function ErReceived(s: System, w: Waiter): System
    requires CanStep(s, ReceiveEr(w))
  {
    s.(tables := TakeEr(s.tables, w.id), er := s.er[w := ErGot(s.tables.erNotifiers[w.id].value)])
  }

  function AsrEntered(s: System, w: Waiter): System {
    if Settled(s.tables, w.id) then
      s.(tables := AwaitAsr(s.tables, w.id),
         waited := s.waited + {w.id},
         synced := s.synced + {w.id},
         asr := s.asr[w := AsrGot(s.tables.erBuffer[w.id])])
    else
      s.(tables := AwaitAsr(s.tables, w.id),
         waited := s.waited + {w.id},
         asr := s.asr[w := AsrBlocked(w.id in s.notified)])
  }

  function AsrWoken(s: System, w: Waiter): System {
    s.(tables := TakeAsr(s.tables, w.id), asr := s.asr[w := AsrReceived])
  }

  function AsrFinished(s: System, w: Waiter): System {
    s.(tables := Forget(s.tables, w.id),
       synced := s.synced + {w.id},
       asr := s.asr[w := AsrGot(AsrAnswer(s.tables, w.id))])
  }

  /** The next state; an event that cannot happen changes nothing. */
  function Step(s: System, e: Event): System {
    if !CanStep(s, e) then s else
    match e
    case InsertEr(id, r) => Inserted(s, id, r)
    case NotifyAsr(id) => Notified(s, id)
    case EnterEr(w) => ErEntered(s, w)
    case ReceiveEr(w) => ErReceived(s, w)
    case EnterAsr(w) => AsrEntered(s, w)
    case ReceiveAsr(w) => AsrWoken(s, w)
    case FinishAsr(w) => AsrFinished(s, w)
  }

  // ---------------------------------------------------------------- what every interleaving keeps

  /** What is stored, in flight or returned by WaitForEr was inserted for that id. */
  ghost predicate ErProvenance(s: System) {
    && (forall id :: id in s.tables.erBuffer ==> WasInserted(s, id, s.tables.erBuffer[id]))
    && (forall id :: id in s.tables.erNotifiers && s.tables.erNotifiers[id].Full? ==>
          WasInserted(s, id, s.tables.erNotifiers[id].value))
    && (forall w :: w in s.er && s.er[w].ErGot? ==> WasInserted(s, w.id, s.er[w].result))
  }

  /** WaitForAsr gets past its wait only after NotifyAsr for that id. */
  ghost predicate AsrProvenance(s: System) {
    && s.tables.asrBuffer <= s.notified
    && (forall id :: id in s.tables.asrNotifiers && s.tables.asrNotifiers[id].Full? ==> id in s.notified)
    && (forall w :: w in s.asr && !s.asr[w].AsrBlocked? ==> w.id in s.notified)
    && (forall w :: w in s.asr && s.asr[w].AsrGot? ==>
          WasInserted(s, w.id, s.asr[w].result) || s.asr[w].result == NOT_FOUND_IN_BUFFER)
  }

  /** An inserted result stays buffered until a WaitForAsr for its id completes. */
  ghost predicate Retention(s: System) {
    forall id :: id in s.inserted ==> id in s.tables.erBuffer || id in s.synced
  }

  ghost predicate Sound(s: System) {
    ErProvenance(s) && AsrProvenance(s) && Retention(s)
  }

  lemma SoundKept(s: System, e: Event)
    requires Sound(s)
    ensures Sound(Step(s, e))
  {
    ErProvenanceKept(s, e);
    AsrProvenanceKept(s, e);
    RetentionKept(s, e);
  }

  lemma ErProvenanceKept(s: System, e: Event)
    requires ErProvenance(s)
    ensures ErProvenance(Step(s, e))
  {
    if CanStep(s, e) {
      match e
      case InsertEr(id, r) => ErProvenanceAfterInsert(s, id, r);
      case EnterEr(w) => ErProvenanceAfterCall(s, w);
      case ReceiveEr(w) => ErProvenanceAfterCall(s, w);
      case _ =>
    }
  }

  lemma ErProvenanceAfterInsert(s: System, id: ProposeId, r: string)
    requires ErProvenance(s)
    ensures ErProvenance(Inserted(s, id, r))
  {
  }

  lemma ErProvenanceAfterCall(s: System, w: Waiter)
    requires ErProvenance(s)
    ensures ErProvenance(ErEntered(s, w))
    ensures CanStep(s, ReceiveEr(w)) ==> ErProvenance(ErReceived(s, w))
  {
  }

  lemma AsrProvenanceKept(s: System, e: Event)
    requires ErProvenance(s) && AsrProvenance(s)
    ensures AsrProvenance(Step(s, e))
  {
    if CanStep(s, e) {
      match e
      case InsertEr(id, r) => AsrProvenanceAfterInsert(s, id, r);
      case EnterAsr(w) => AsrProvenanceAfterEnter(s, w);
      case FinishAsr(w) => AsrProvenanceAfterFinish(s, w);
      case _ =>
    }
  }

  lemma AsrProvenanceAfterInsert(s: System, id: ProposeId, r: string)
    requires AsrProvenance(s)
    ensures AsrProvenance(Inserted(s, id, r))
  {
  }

  lemma AsrProvenanceAfterEnter(s: System, w: Waiter)
    requires ErProvenance(s) && AsrProvenance(s)
    ensures AsrProvenance(AsrEntered(s, w))
  {
  }

  lemma AsrProvenanceAfterFinish(s: System, w: Waiter)
    requires ErProvenance(s) && AsrProvenance(s) && CanStep(s, FinishAsr(w))
    ensures AsrProvenance(AsrFinished(s, w))
  {
  }

  lemma RetentionKept(s: System, e: Event)
    requires Retention(s)
    ensures Retention(Step(s, e))
  {
  }

  // ---------------------------------------------------------------- at most one of each call per id

  /** e is not a second insertion or notification for its id. */
  predicate FirstSend(s: System, e: Event) {
    match e
    case InsertEr(id, _) => id !in s.inserted
    case NotifyAsr(id) => id !in s.notified
    case _ => true
  }

  /** e is not a second WaitForAsr call for its id. */
  predicate FirstSyncCall(s: System, e: Event) {
    e.EnterAsr? ==> e.w.id !in s.waited
  }

  predicate FirstOfItsKind(s: System, e: Event) {
    FirstSend(s, e) && FirstSyncCall(s, e)
  }

  ghost predicate OneResult(s: System) {
    forall id, r, q :: WasInserted(s, id, r) && WasInserted(s, id, q) ==> r == q
  }

  ghost predicate SyncCalls(s: System) {
    && (forall v, w :: v in s.asr && w in s.asr && v.id == w.id ==> v == w)
    && (forall w :: w in s.asr ==> w.id in s.waited)
    && (forall w :: w in s.asr && w.id in s.synced ==> s.asr[w].AsrGot?)
    && s.synced <= s.waited
    && (forall id :: id in s.tables.asrNotifiers ==> id in s.waited)
    && (forall id :: id in s.notified && id !in s.waited ==> id in s.tables.asrBuffer)
  }

  /** Which sync channels hold their token. */
  ghost predicate SyncTokens(s: System) {
    forall w :: w in s.asr && s.asr[w].AsrBlocked? ==>
      && w.id in s.tables.asrNotifiers
      && (w.id !in s.notified ==> !s.asr[w].late)
      && (w.id in s.notified ==> (s.tables.asrNotifiers[w.id].Full? <==> !s.asr[w].late))
  }

  ghost predicate SyncChannels(s: System) {
    SyncCalls(s) && SyncTokens(s)
  }

  lemma OneResultKept(s: System, e: Event)
    requires OneResult(s) && FirstOfItsKind(s, e)
    ensures OneResult(Step(s, e))
  {
    var s' := Step(s, e);
    forall id, r, q | WasInserted(s', id, r) && WasInserted(s', id, q) ensures r == q {
      assert id in s.inserted ==> WasInserted(s, id, r) && WasInserted(s, id, q);
    }
  }

  lemma SyncCallsKept(s: System, e: Event)
    requires SyncCalls(s) && FirstSyncCall(s, e)
    ensures SyncCalls(Step(s, e))
  {
    if CanStep(s, e) {
      match e
      case EnterAsr(w) => CallsAfterEnter(s, w);
      case ReceiveAsr(w) => CallsAfterWake(s, w);
      case FinishAsr(w) => CallsAfterFinish(s, w);
      case NotifyAsr(_) =>
      case _ =>
        assert SameSyncSide(s, Step(s, e));
    }
  }

  lemma CallsAfterEnter(s: System, w: Waiter)
    requires SyncCalls(s) && w.id !in s.waited
    ensures SyncCalls(AsrEntered(s, w))
  {
  }

  lemma CallsAfterWake(s: System, w: Waiter)
    requires SyncCalls(s) && CanStep(s, ReceiveAsr(w))
    ensures SyncCalls(AsrWoken(s, w))
  {
  }

  lemma CallsAfterFinish(s: System, w: Waiter)
    requires SyncCalls(s) && w in s.asr
    ensures SyncCalls(AsrFinished(s, w))
  {
  }

  /** The fields of the sync side are untouched by the result side's events. */
  predicate SameSyncSide(s: System, t: System) {
    && t.asr == s.asr && t.tables.asrNotifiers == s.tables.asrNotifiers && t.tables.asrBuffer == s.tables.asrBuffer
    && t.notified == s.notified && t.waited == s.waited && t.synced == s.synced
  }

  lemma SyncTokensKept(s: System, e: Event)
    requires AsrProvenance(s) && SyncCalls(s) && SyncTokens(s) && FirstOfItsKind(s, e)
    ensures SyncTokens(Step(s, e))
  {
    if CanStep(s, e) {
      match e
      case NotifyAsr(id) => TokensAfterNotify(s, id);
      case EnterAsr(w) => TokensAfterEnter(s, w);
      case ReceiveAsr(w) => TokensAfterWake(s, w);
      case FinishAsr(w) => TokensAfterFinish(s, w);
      case _ =>
        assert SameSyncSide(s, Step(s, e));
    }
  }

  lemma TokensAfterNotify(s: System, id: ProposeId)
    requires AsrProvenance(s) && SyncTokens(s) && id !in s.notified
    ensures SyncTokens(Notified(s, id))
  {
  }

  lemma TokensAfterEnter(s: System, w: Waiter)
    requires SyncCalls(s) && SyncTokens(s) && w.id !in s.waited
    ensures SyncTokens(AsrEntered(s, w))
  {
  }

  lemma TokensAfterWake(s: System, w: Waiter)
    requires SyncCalls(s) && SyncTokens(s) && CanStep(s, ReceiveAsr(w))
    ensures SyncTokens(AsrWoken(s, w))
  {
  }

  lemma TokensAfterFinish(s: System, w: Waiter)
    requires SyncTokens(s)
    ensures SyncTokens(AsrFinished(s, w))
  {
  }

  lemma SyncChannelsKept(s: System, e: Event)
    requires Sound(s) && SyncChannels(s) && FirstOfItsKind(s, e)
    ensures SyncChannels(Step(s, e))
  {
    hide Step, FirstSend, FirstSyncCall, SyncCalls, SyncTokens, AsrProvenance, ErProvenance, Retention;
    SyncCallsKept(s, e);
    SyncTokensKept(s, e);
  }

  /** Every send made under the lock finds its channel empty. */
  lemma SendsNeverBlock(s: System, e: Event)
    requires Sound(s) && FirstSend(s, e)
    requires e.InsertEr? || e.NotifyAsr?
    ensures CanStep(s, e)
  {
  }

  /** What an event does to the history: only an insertion inserts, only a notification notifies. */
  lemma HistoryFrame(s: System, e: Event)
    requires CanStep(s, e)
    ensures var s' := Step(s, e);
            && s'.notified == (if e.NotifyAsr? then s.notified + {e.id} else s.notified)
            && s'.inserted.Keys == (if e.InsertEr? then s.inserted.Keys + {e.id} else s.inserted.Keys)
            && (!e.InsertEr? ==> s'.inserted == s.inserted)
            && (e.InsertEr? && e.id !in s.inserted ==> s'.inserted == s.inserted[e.id := {e.result}])
  {
    assert e.InsertEr? ==> {} + {e.result} == {e.result};
  }

  /** Insertions and completed calls are never taken back. */
  ghost predicate Grows(s: System, t: System) {
    && (forall id :: id in s.inserted ==> id in t.inserted && s.inserted[id] <= t.inserted[id])
    && s.notified <= t.notified
    && (forall w :: w in s.asr && s.asr[w].AsrGot? ==> w in t.asr && t.asr[w] == s.asr[w])
  }

  lemma StepGrows(s: System, e: Event)
    ensures Grows(s, Step(s, e))
  {
  }

  // ---------------------------------------------------------------- InsertEr before NotifyAsr

  predicate InOrder(s: System, e: Event) {
    e.NotifyAsr? ==> e.id in s.inserted
  }

  ghost predicate Answers(s: System) {
    && (forall id :: id in s.notified ==> id in s.inserted)
    && (forall w :: w in s.asr && s.asr[w].AsrBlocked? ==> !s.asr[w].late)
    && (forall w :: w in s.asr && s.asr[w].AsrGot? ==> WasInserted(s, w.id, s.asr[w].result))
    && (forall id :: id in s.synced ==> id in s.inserted)
  }

  lemma AnswersKept(s: System, e: Event)
    requires Sound(s) && SyncChannels(s) && Answers(s)
    requires FirstOfItsKind(s, e) && InOrder(s, e)
    ensures Answers(Step(s, e))
  {
    if CanStep(s, e) {
      match e
      case EnterAsr(w) => AnswersAfterEnter(s, w);
      case FinishAsr(w) => AnswersAfterFinish(s, w);
      case _ => AnswersAfterOther(s, e);
    }
  }

  lemma AnswersAfterEnter(s: System, w: Waiter)
    requires Sound(s) && SyncCalls(s) && Answers(s) && w.id !in s.waited
    ensures Answers(AsrEntered(s, w))
  {
    assert w.id in s.notified ==> Settled(s.tables, w.id);
  }

  lemma AnswersAfterFinish(s: System, w: Waiter)
    requires Sound(s) && SyncCalls(s) && Answers(s) && CanStep(s, FinishAsr(w))
    ensures Answers(AsrFinished(s, w))
  {
    assert w.id in s.tables.erBuffer;
  }

  lemma AnswersAfterOther(s: System, e: Event)
    requires Answers(s) && InOrder(s, e) && !e.EnterAsr? && !e.FinishAsr?
    ensures Answers(Step(s, e))
  {
    var s' := Step(s, e);
    assert forall id :: id in s.inserted ==> id in s'.inserted && s.inserted[id] <= s'.inserted[id];
  }

  /** The state once w's own remaining steps are taken. */
  function Complete(s: System, w: Waiter): System {
    Step(Step(s, ReceiveAsr(w)), FinishAsr(w))
  }

  /** w's call can go on at once, and will return a result inserted for its id. */
  ghost predicate Answered(s: System, w: Waiter) {
    && w in s.asr
    && (s.asr[w].AsrBlocked? ==> CanStep(s, ReceiveAsr(w)))
    && (s.asr[w].AsrReceived? ==> w.id in s.tables.erBuffer)
    && var done := Complete(s, w);
       w in done.asr && done.asr[w].AsrGot? && WasInserted(s, w.id, done.asr[w].result)
  }

  lemma NotifiedIsAnswered(s: System, w: Waiter)
    requires Sound(s) && SyncChannels(s) && Answers(s)
    requires w in s.asr && w.id in s.notified
    ensures Answered(s, w)
  {
    assert !s.asr[w].AsrGot? ==> w.id in s.tables.erBuffer;
  }

  // ---------------------------------------------------------------- WaitForEr

  /** e is the first WaitForEr call for its id. */
  predicate FirstErCall(s: System, e: Event) {
    e.EnterEr? ==> e.w.id !in s.called
  }

  /** Which result channels hold their value, with one WaitForEr call per id. */
  ghost predicate ResultChannels(s: System) {
    && (forall v, w :: v in s.er && w in s.er && v.id == w.id ==> v == w)
    && (forall w :: w in s.er ==> w.id in s.called)
    && (forall id :: id in s.tables.erNotifiers ==> id in s.called)
    && (forall w :: w in s.er && s.er[w].ErBlocked? ==>
          && w.id in s.tables.erNotifiers
          && (w.id !in s.inserted ==> !s.er[w].late)
          && (w.id in s.inserted ==> (s.tables.erNotifiers[w.id].Full? <==> !s.er[w].late)))
  }

  lemma ResultChannelsKept(s: System, e: Event)
    requires Sound(s) && ResultChannels(s)
    requires FirstSend(s, e) && FirstErCall(s, e)
    ensures ResultChannels(Step(s, e))
  {
    if CanStep(s, e) {
      match e
      case InsertEr(id, r) => ResultsAfterInsert(s, id, r);
      case EnterEr(w) => ResultsAfterEnter(s, w);
      case ReceiveEr(w) => ResultsAfterReceive(s, w);
      case _ => ResultsAfterOther(s, e);
    }
  }

  lemma ResultsAfterOther(s: System, e: Event)
    requires ResultChannels(s) && !e.InsertEr? && !e.EnterEr? && !e.ReceiveEr?
    ensures ResultChannels(Step(s, e))
  {
    assert SameResultSide(s, Step(s, e));
  }

  predicate SameResultSide(s: System, t: System) {
    t.er == s.er && t.tables.erNotifiers == s.tables.erNotifiers && t.inserted == s.inserted && t.called == s.called
  }

  lemma ResultsAfterInsert(s: System, id: ProposeId, r: string)
    requires ResultChannels(s) && id !in s.inserted
    ensures ResultChannels(Inserted(s, id, r))
  {
  }

  lemma ResultsAfterEnter(s: System, w: Waiter)
    requires Retention(s) && ResultChannels(s) && w.id !in s.called
    ensures ResultChannels(ErEntered(s, w))
  {
  }

  lemma ResultsAfterReceive(s: System, w: Waiter)
    requires ResultChannels(s) && CanStep(s, ReceiveEr(w))
    ensures ResultChannels(ErReceived(s, w))
  {
  }

  // ---------------------------------------------------------------- runs

  /** The state after a run of events. */
  function After(es: seq<Event>): System {
    if es == [] then Quiet else Step(After(es[..|es| - 1]), es[|es| - 1])
  }

  lemma AfterStep(es: seq<Event>, e: Event)
    ensures After(es + [e]) == Step(After(es), e)
  {
    assert (es + [e])[..|es|] == es;
  }

  ghost predicate IsRun(es: seq<Event>) {
    forall k :: 0 <= k < |es| ==> CanStep(After(es[..k]), es[k])
  }

  /** At most one InsertEr and one NotifyAsr per id. */
  ghost predicate SendsOncePerId(es: seq<Event>) {
    forall i, j :: 0 <= i < j < |es| ==>
      && (es[i].InsertEr? && es[j].InsertEr? ==> es[i].id != es[j].id)
      && (es[i].NotifyAsr? && es[j].NotifyAsr? ==> es[i].id != es[j].id)
  }

  /** At most one WaitForAsr call per id. */
  ghost predicate OneSyncCallPerId(es: seq<Event>) {
    forall i, j :: 0 <= i < j < |es| && es[i].EnterAsr? && es[j].EnterAsr? ==> es[i].w.id != es[j].w.id
  }

  ghost predicate OncePerId(es: seq<Event>) {
    SendsOncePerId(es) && OneSyncCallPerId(es)
  }

  ghost predicate InsertedIn(es: seq<Event>, id: ProposeId) {
    exists i :: 0 <= i < |es| && es[i].InsertEr? && es[i].id == id
  }

  ghost predicate CallIn(es: seq<Event>, id: ProposeId) {
    exists i :: 0 <= i < |es| && es[i].EnterEr? && es[i].w.id == id
  }

  ghost predicate SyncCallIn(es: seq<Event>, id: ProposeId) {
    exists i :: 0 <= i < |es| && es[i].EnterAsr? && es[i].w.id == id
  }

  ghost predicate InsertFirst(es: seq<Event>) {
    forall j :: 0 <= j < |es| && es[j].NotifyAsr? ==> InsertedIn(es[..j], es[j].id)
  }

  ghost predicate OneErCallPerId(es: seq<Event>) {
    forall i, j :: 0 <= i < j < |es| && es[i].EnterEr? && es[j].EnterEr? ==> es[i].w.id != es[j].w.id
  }

  /** The state's history is the run's events. */
  ghost predicate HistoryOf(s: System, es: seq<Event>) {
    && (forall id, r :: WasInserted(s, id, r) <==> InsertEr(id, r) in es)
    && (forall id :: id in s.inserted <==> InsertedIn(es, id))
    && (forall id :: id in s.notified <==> NotifyAsr(id) in es)
    && (forall w :: w in s.asr <==> EnterAsr(w) in es)
    && (forall id :: id in s.called <==> CallIn(es, id))
    && (forall id :: id in s.waited <==> SyncCallIn(es, id))
  }

  lemma InsertedSnoc(es: seq<Event>, e: Event, id: ProposeId)
    ensures InsertedIn(es + [e], id) <==> InsertedIn(es, id) || (e.InsertEr? && e.id == id)
  {
    var all := es + [e];
    assert forall i :: 0 <= i < |es| ==> all[i] == es[i];
    assert all[|es|] == e;
  }

  lemma CallsSnoc(es: seq<Event>, e: Event, id: ProposeId)
    ensures CallIn(es + [e], id) <==> CallIn(es, id) || (e.EnterEr? && e.w.id == id)
    ensures SyncCallIn(es + [e], id) <==> SyncCallIn(es, id) || (e.EnterAsr? && e.w.id == id)
  {
    var all := es + [e];
    assert forall i :: 0 <= i < |es| ==> all[i] == es[i];
    assert all[|es|] == e;
  }

  lemma HistorySets(s: System, e: Event)
    requires CanStep(s, e)
    ensures var s' := Step(s, e);
            && (forall id, r :: WasInserted(s', id, r) <==> WasInserted(s, id, r) || e == InsertEr(id, r))
            && (forall id :: id in s'.inserted <==> id in s.inserted || (e.InsertEr? && e.id == id))
            && (forall id :: id in s'.notified <==> id in s.notified || e == NotifyAsr(id))
            && (forall w :: w in s'.asr <==> w in s.asr || e == EnterAsr(w))
            && (forall id :: id in s'.called <==> id in s.called || (e.EnterEr? && e.w.id == id))
            && (forall id :: id in s'.waited <==> id in s.waited || (e.EnterAsr? && e.w.id == id))
  {
  }

  lemma HistoryStep(s: System, es: seq<Event>, e: Event)
    requires HistoryOf(s, es) && CanStep(s, e)
    ensures HistoryOf(Step(s, e), es + [e])
  {
    HistorySets(s, e);
    hide Step, InsertedIn, CallIn, SyncCallIn, CanStep, WasInserted;
    var s', all := Step(s, e), es + [e];
    forall x ensures x in all <==> x in es || x == e {
    }
    forall id ensures id in s'.inserted <==> InsertedIn(all, id) {
      InsertedSnoc(es, e, id);
    }
    forall id ensures id in s'.called <==> CallIn(all, id) {
      CallsSnoc(es, e, id);
    }
    forall id ensures id in s'.waited <==> SyncCallIn(all, id) {
      CallsSnoc(es, e, id);
    }
  }

  lemma RunPrefix(es: seq<Event>, e: Event)
    requires IsRun(es + [e])
    ensures IsRun(es) && CanStep(After(es), e)
  {
    var all := es + [e];
    assert all[..|es|] == es && all[|es|] == e;
    forall k | 0 <= k < |es| ensures CanStep(After(es[..k]), es[k]) {
      assert all[..k] == es[..k] && all[k] == es[k];
    }
  }

  lemma DisciplinePrefix(es: seq<Event>, e: Event)
    ensures SendsOncePerId(es + [e]) ==> SendsOncePerId(es)
    ensures OneSyncCallPerId(es + [e]) ==> OneSyncCallPerId(es)
    ensures InsertFirst(es + [e]) ==> InsertFirst(es)
    ensures OneErCallPerId(es + [e]) ==> OneErCallPerId(es)
  {
    var all := es + [e];
    assert forall i :: 0 <= i < |es| ==> all[i] == es[i];
    assert forall k :: 0 <= k <= |es| ==> all[..k] == es[..k];
  }

  lemma {:induction false} HistoryHolds(es: seq<Event>)
    requires IsRun(es)
    ensures HistoryOf(After(es), es)
    decreases |es|
  {
    if es == [] {
    } else {
      hide *;
      var es', e := es[..|es| - 1], es[|es| - 1];
      assert es == es' + [e];
      RunPrefix(es', e);
      HistoryHolds(es');
      HistoryStep(After(es'), es', e);
      AfterStep(es', e);
    }
  }

  lemma {:induction false} AlwaysSound(es: seq<Event>)
    ensures Sound(After(es))
    decreases |es|
  {
    if es == [] {
    } else {
      hide *;
      var es', e := es[..|es| - 1], es[|es| - 1];
      assert es == es' + [e];
      AlwaysSound(es');
      SoundKept(After(es'), e);
      AfterStep(es', e);
    }
  }

  /** Some WaitForAsr call for id has returned. */
  ghost predicate Completed(s: System, id: ProposeId) {
    exists w :: w in s.asr && s.asr[w].AsrGot? && w.id == id
  }

  lemma CompletedStep(s: System, e: Event, id: ProposeId)
    requires id in s.synced <==> Completed(s, id)
    ensures id in Step(s, e).synced <==> Completed(Step(s, e), id)
  {
    var s' := Step(s, e);
    if Completed(s, id) {
      var w :| w in s.asr && s.asr[w].AsrGot? && w.id == id;
      assert w in s'.asr && s'.asr[w] == s.asr[w];
    } else if id in s'.synced {
      assert (e.EnterAsr? || e.FinishAsr?) && e.w in s'.asr && s'.asr[e.w].AsrGot?;
    }
  }

  lemma {:induction false} SyncedExactly(es: seq<Event>, id: ProposeId)
    ensures id in After(es).synced <==> Completed(After(es), id)
    decreases |es|
  {
    if es == [] {
    } else {
      hide *;
      var es', e := es[..|es| - 1], es[|es| - 1];
      assert es == es' + [e];
      SyncedExactly(es', id);
      CompletedStep(After(es'), e, id);
      AfterStep(es', e);
    }
  }

  /** Over every interleaving: where results come from, what a sync waits for, and how long results stay. */
  lemma ProvenanceAndRetention(es: seq<Event>, w: Waiter)
    requires IsRun(es)
    ensures w in After(es).er && After(es).er[w].ErGot? ==> InsertEr(w.id, After(es).er[w].result) in es
    ensures w in After(es).asr && After(es).asr[w].AsrGot? ==> NotifyAsr(w.id) in es
    ensures InsertedIn(es, w.id) && !Completed(After(es), w.id) ==> w.id in After(es).tables.erBuffer
  {
    AlwaysSound(es);
    HistoryHolds(es);
    SyncedExactly(es, w.id);
  }

  /** In a run with one insertion and one notification per id, the next of them is the first. */
  lemma NextSendIsFirst(es: seq<Event>, e: Event)
    requires IsRun(es) && SendsOncePerId(es + [e])
    ensures FirstSend(After(es), e)
  {
    HistoryHolds(es);
    var all := es + [e];
    assert all[|es|] == e;
    assert forall i :: 0 <= i < |es| ==> all[i] == es[i];
  }

  lemma NextSyncCallIsFirst(es: seq<Event>, e: Event)
    requires IsRun(es) && OneSyncCallPerId(es + [e])
    ensures FirstSyncCall(After(es), e)
  {
    HistoryHolds(es);
    var all := es + [e];
    assert all[|es|] == e;
    assert forall i :: 0 <= i < |es| ==> all[i] == es[i];
  }

  /** A disciplined run's next event is the first of its kind. */
  lemma NextIsFirst(es: seq<Event>, e: Event)
    requires IsRun(es) && OncePerId(es + [e])
    ensures OncePerId(es) && FirstOfItsKind(After(es), e)
  {
    hide IsRun, SendsOncePerId, OneSyncCallPerId, FirstSend, FirstSyncCall, After;
    DisciplinePrefix(es, e);
    NextSendIsFirst(es, e);
    NextSyncCallIsFirst(es, e);
  }

  lemma NextIsInOrder(es: seq<Event>, e: Event)
    requires IsRun(es) && InsertFirst(es + [e])
    ensures InOrder(After(es), e)
  {
    assert (es + [e])[..|es|] == es && (es + [e])[|es|] == e;
    HistoryHolds(es);
  }

  lemma NextIsFirstErCall(es: seq<Event>, e: Event)
    requires IsRun(es) && OneErCallPerId(es + [e])
    ensures FirstErCall(After(es), e)
  {
    HistoryHolds(es);
    var all := es + [e];
    assert all[|es|] == e;
    assert forall i :: 0 <= i < |es| ==> all[i] == es[i];
  }

  lemma {:induction false} AlwaysSyncChannels(es: seq<Event>)
    requires IsRun(es) && OncePerId(es)
    ensures SyncChannels(After(es)) && OneResult(After(es))
    decreases |es|
  {
    if es == [] {
    } else {
      hide *;
      var es', e := es[..|es| - 1], es[|es| - 1];
      assert es == es' + [e];
      RunPrefix(es', e);
      NextIsFirst(es', e);
      AlwaysSyncChannels(es');
      AlwaysSound(es');
      SyncChannelsKept(After(es'), e);
      OneResultKept(After(es'), e);
      AfterStep(es', e);
    }
  }

  lemma {:induction false} AlwaysSyncCalls(es: seq<Event>)
    requires IsRun(es) && OneSyncCallPerId(es)
    ensures SyncCalls(After(es))
    decreases |es|
  {
    if es == [] {
    } else {
      hide *;
      var es', e := es[..|es| - 1], es[|es| - 1];
      assert es == es' + [e];
      RunPrefix(es', e);
      DisciplinePrefix(es', e);
      AlwaysSyncCalls(es');
      NextSyncCallIsFirst(es', e);
      SyncCallsKept(After(es'), e);
      AfterStep(es', e);
    }
  }

  /** The worker never blocks on the board: its next send always finds room, whoever waits. */
  lemma WorkerNeverBlocks(es: seq<Event>, e: Event)
    requires IsRun(es) && SendsOncePerId(es + [e])
    requires e.InsertEr? || e.NotifyAsr?
    ensures CanStep(After(es), e)
  {
    NextSendIsFirst(es, e);
    AlwaysSound(es);
    SendsNeverBlock(After(es), e);
  }

  lemma {:induction false} AlwaysAnswers(es: seq<Event>)
    requires IsRun(es) && OncePerId(es) && InsertFirst(es)
    ensures Answers(After(es))
    decreases |es|
  {
    if es == [] {
    } else {
      hide *;
      var es', e := es[..|es| - 1], es[|es| - 1];
      assert es == es' + [e];
      RunPrefix(es', e);
      DisciplinePrefix(es', e);
      NextIsFirst(es', e);
      AlwaysAnswers(es');
      AlwaysSound(es');
      AlwaysSyncChannels(es');
      NextIsInOrder(es', e);
      AnswersKept(After(es'), e);
      AfterStep(es', e);
    }
  }

  /** No lost wakeup: a notified WaitForAsr call is never stuck, and returns the inserted result. */
  lemma NoLostWakeup(es: seq<Event>, w: Waiter)
    requires IsRun(es) && OncePerId(es) && InsertFirst(es)
    requires EnterAsr(w) in es && NotifyAsr(w.id) in es
    ensures Answered(After(es), w)
    ensures InsertEr(w.id, Complete(After(es), w).asr[w].result) in es
  {
    HistoryHolds(es);
    AlwaysSound(es);
    AlwaysSyncChannels(es);
    AlwaysAnswers(es);
    NotifiedIsAnswered(After(es), w);
  }

  /**
   * A woken call, at its second section, finds a result exactly when one was inserted for its id by then. The branch
   * marked unreachable is taken exactly otherwise.
   */
  lemma NotFoundExactly(es: seq<Event>, w: Waiter)
    requires IsRun(es) && OneSyncCallPerId(es)
    requires w in After(es).asr && After(es).asr[w].AsrReceived?
    ensures w.id in After(es).tables.erBuffer <==> InsertedIn(es, w.id)
    ensures w in Step(After(es), FinishAsr(w)).asr
    ensures !InsertedIn(es, w.id) ==> Step(After(es), FinishAsr(w)).asr[w] == AsrGot(NOT_FOUND_IN_BUFFER)
  {
    hide After, IsRun, OneSyncCallPerId;
    assert w.id in After(es).inserted <==> InsertedIn(es, w.id) by {
      HistoryHolds(es);
    }
    AlwaysSound(es);
    AlwaysSyncCalls(es);
  }

  lemma WakeAndFinish(id: ProposeId, w: Waiter, s2: System)
    requires w.id == id && s2 == Step(Step(Quiet, EnterAsr(w)), NotifyAsr(id))
    ensures var s3 := Step(s2, ReceiveAsr(w));
            && CanStep(Quiet, EnterAsr(w)) && CanStep(Step(Quiet, EnterAsr(w)), NotifyAsr(id))
            && CanStep(s2, ReceiveAsr(w)) && CanStep(s3, FinishAsr(w))
            && w in Step(s3, FinishAsr(w)).asr && Step(s3, FinishAsr(w)).asr[w] == AsrGot(NOT_FOUND_IN_BUFFER)
  {
    var s1 := Step(Quiet, EnterAsr(w));
    assert s1.asr[w] == AsrBlocked(false) && s1.tables.asrNotifiers == map[id := Empty] && s1.tables.erBuffer == map[];
    assert s2.tables.asrNotifiers[id] == Full(()) && s2.asr == s1.asr && s2.tables.erBuffer == map[];
    var s3 := Step(s2, ReceiveAsr(w));
    assert s3.asr[w] == AsrReceived && s3.tables.erBuffer == map[];
  }

  /** A run that reaches the branch marked unreachable: the call is woken and finishes, and nothing was inserted. */
  lemma NotifyOnlyFindsNothing(id: ProposeId)
    ensures var w := Waiter(id, 0);
            var es := [EnterAsr(w)] + [NotifyAsr(id)] + [ReceiveAsr(w)] + [FinishAsr(w)];
            && IsRun(es) && OncePerId(es)
            && w in After(es).asr && After(es).asr[w] == AsrGot(NOT_FOUND_IN_BUFFER)
  {
    var w := Waiter(id, 0);
    var e0, e1, e2, e3 := EnterAsr(w), NotifyAsr(id), ReceiveAsr(w), FinishAsr(w);
    assert OncePerId([e0] + [e1] + [e2] + [e3]);
    hide *;
    WakeAndFinish(id, w, Step(Step(Quiet, e0), e1));
    ThreeSteps(e0, e1, e2);
    AfterStep([e0] + [e1] + [e2], e3);
    RunSnoc([e0] + [e1] + [e2], e3);
  }

  // ---------------------------------------------------------------- what is buffered, and who is woken

  /** What is buffered is what was inserted or notified and no completed WaitForAsr has cleaned up. */
  ghost predicate Buffers(s: System) {
    && s.synced <= s.notified && (forall id :: id in s.notified ==> id in s.inserted)
    && s.tables.asrBuffer == s.notified - s.synced
    && s.tables.erBuffer.Keys == s.inserted.Keys - s.synced
  }

  lemma BuffersKept(s: System, e: Event)
    requires AsrProvenance(s) && Buffers(s) && FirstSend(s, e) && InOrder(s, e)
    ensures Buffers(Step(s, e))
  {
  }

  lemma {:induction false} AlwaysBuffers(es: seq<Event>)
    requires IsRun(es) && SendsOncePerId(es) && InsertFirst(es)
    ensures Buffers(After(es))
    decreases |es|
  {
    if es == [] {
    } else {
      hide *;
      var es', e := es[..|es| - 1], es[|es| - 1];
      assert es == es' + [e];
      RunPrefix(es', e);
      DisciplinePrefix(es', e);
      AlwaysBuffers(es');
      AlwaysSound(es');
      SoundParts(After(es'));
      NextSendIsFirst(es', e);
      NextIsInOrder(es', e);
      BuffersKept(After(es'), e);
      AfterStep(es', e);
    }
  }

  lemma SoundParts(s: System)
    requires Sound(s)
    ensures ErProvenance(s) && AsrProvenance(s) && Retention(s)
  {
    hide ErProvenance, AsrProvenance, Retention;
  }

  /** With insertion before notification, the buffers hold exactly what happened and no WaitForAsr has returned for. */
  lemma BuffersExactly(es: seq<Event>, id: ProposeId)
    requires IsRun(es) && SendsOncePerId(es) && InsertFirst(es)
    ensures id in After(es).tables.erBuffer <==> InsertedIn(es, id) && !Completed(After(es), id)
    ensures id in After(es).tables.asrBuffer <==> NotifyAsr(id) in es && !Completed(After(es), id)
  {
    hide After, IsRun, SendsOncePerId, InsertFirst, InsertedIn, Completed;
    AlwaysBuffers(es);
    HistoryHolds(es);
    SyncedExactly(es, id);
  }

  /** Some call for id has received from its result channel, or from its sync channel. */
  ghost predicate ErReceivedIn(es: seq<Event>, id: ProposeId) {
    exists k :: 0 <= k < |es| && es[k].ReceiveEr? && es[k].w.id == id
  }

  ghost predicate AsrReceivedIn(es: seq<Event>, id: ProposeId) {
    exists k :: 0 <= k < |es| && es[k].ReceiveAsr? && es[k].w.id == id
  }

  lemma ReceivedSnoc(es: seq<Event>, e: Event, id: ProposeId)
    ensures ErReceivedIn(es + [e], id) <==> ErReceivedIn(es, id) || (e.ReceiveEr? && e.w.id == id)
    ensures AsrReceivedIn(es + [e], id) <==> AsrReceivedIn(es, id) || (e.ReceiveAsr? && e.w.id == id)
  {
    var all := es + [e];
    assert forall k :: 0 <= k < |es| ==> all[k] == es[k];
    assert all[|es|] == e;
  }

  /** The channel's value was received, and nothing will be sent to it again. */
  ghost predicate Spent(s: System, id: ProposeId, er: bool) {
    if er then id in s.inserted && id in s.tables.erNotifiers && s.tables.erNotifiers[id].Empty?
    else id in s.notified && id in s.tables.asrNotifiers && s.tables.asrNotifiers[id].Empty?
  }

  lemma SpentKept(s: System, e: Event, id: ProposeId, er: bool)
    requires Sound(s) && CanStep(s, e) && FirstSend(s, e)
    ensures Spent(s, id, er) ==> Spent(Step(s, e), id, er)
    ensures (if er then e.ReceiveEr? else e.ReceiveAsr?) && e.w.id == id ==>
              !Spent(s, id, er) && Spent(Step(s, e), id, er)
  {
  }

  lemma {:induction false} ReceivedIsSpent(es: seq<Event>, id: ProposeId)
    requires IsRun(es) && SendsOncePerId(es)
    ensures ErReceivedIn(es, id) ==> Spent(After(es), id, true)
    ensures AsrReceivedIn(es, id) ==> Spent(After(es), id, false)
    decreases |es|
  {
    if es == [] {
    } else {
      hide *;
      var es', e := es[..|es| - 1], es[|es| - 1];
      assert es == es' + [e];
      RunPrefix(es', e);
      DisciplinePrefix(es', e);
      ReceivedIsSpent(es', id);
      AlwaysSound(es');
      NextSendIsFirst(es', e);
      ReceivedSnoc(es', e, id);
      SpentKept(After(es'), e, id, true);
      SpentKept(After(es'), e, id, false);
      AfterStep(es', e);
    }
  }

  /** Something was sent to id's result channel, or to its sync channel. */
  ghost predicate ErSentIn(es: seq<Event>, id: ProposeId) {
    exists k :: 0 <= k < |es| && es[k].InsertEr? && es[k].id == id && id in After(es[..k]).tables.erNotifiers
  }

  ghost predicate AsrSentIn(es: seq<Event>, id: ProposeId) {
    exists k :: 0 <= k < |es| && es[k] == NotifyAsr(id) && id in After(es[..k]).tables.asrNotifiers
  }

  lemma SentSnoc(es: seq<Event>, e: Event, id: ProposeId)
    ensures ErSentIn(es + [e], id) <==>
            ErSentIn(es, id) || (e.InsertEr? && e.id == id && id in After(es).tables.erNotifiers)
    ensures AsrSentIn(es + [e], id) <==>
            AsrSentIn(es, id) || (e == NotifyAsr(id) && id in After(es).tables.asrNotifiers)
  {
    hide After;
    var all := es + [e];
    assert all[..|es|] == es && all[|es|] == e;
    assert forall k :: 0 <= k < |es| ==> all[..k] == es[..k] && all[k] == es[k];
  }

  predicate InFlight(s: System, id: ProposeId, er: bool) {
    if er then id in s.tables.erNotifiers && s.tables.erNotifiers[id].Full?
    else id in s.tables.asrNotifiers && s.tables.asrNotifiers[id].Full?
  }

  lemma InFlightKept(s: System, e: Event, id: ProposeId)
    requires CanStep(s, e)
    ensures InFlight(s, id, true) && !(e.ReceiveEr? && e.w.id == id) ==> InFlight(Step(s, e), id, true)
    ensures InFlight(s, id, false) && !(e.ReceiveAsr? && e.w.id == id) ==> InFlight(Step(s, e), id, false)
    ensures e.InsertEr? && e.id == id && id in s.tables.erNotifiers ==> InFlight(Step(s, e), id, true)
    ensures e == NotifyAsr(id) && id in s.tables.asrNotifiers ==> InFlight(Step(s, e), id, false)
  {
  }

  /** In every interleaving, what was sent to a channel stays there until a call receives it. */
  lemma {:induction false} SentIsKept(es: seq<Event>, id: ProposeId)
    requires IsRun(es)
    ensures ErSentIn(es, id) && !ErReceivedIn(es, id) ==> InFlight(After(es), id, true)
    ensures AsrSentIn(es, id) && !AsrReceivedIn(es, id) ==> InFlight(After(es), id, false)
    decreases |es|
  {
    if es == [] {
    } else {
      hide *;
      var es', e := es[..|es| - 1], es[|es| - 1];
      assert es == es' + [e];
      RunPrefix(es', e);
      SentIsKept(es', id);
      SentSnoc(es', e, id);
      ReceivedSnoc(es', e, id);
      InFlightKept(After(es'), e, id);
      AfterStep(es', e);
    }
  }

  /** One send wakes one call: after a call has received, no other call for its id can, of the same kind. */
  lemma OneWakeupPerSend(es: seq<Event>, v: Waiter)
    requires IsRun(es) && SendsOncePerId(es)
    ensures ErReceivedIn(es, v.id) ==> !CanStep(After(es), ReceiveEr(v))
    ensures AsrReceivedIn(es, v.id) ==> !CanStep(After(es), ReceiveAsr(v))
  {
    hide After, IsRun, SendsOncePerId, ErReceivedIn, AsrReceivedIn;
    ReceivedIsSpent(es, v.id);
  }

  /** w's call came after the notification of its id. */
  ghost predicate EnteredAfterNotify(es: seq<Event>, w: Waiter) {
    exists i, j :: 0 <= i < j < |es| && es[i] == NotifyAsr(w.id) && es[j] == EnterAsr(w)
  }

  lemma AfterNotifySnoc(es: seq<Event>, e: Event, w: Waiter)
    ensures EnteredAfterNotify(es + [e], w) <==>
            EnteredAfterNotify(es, w) || (NotifyAsr(w.id) in es && e == EnterAsr(w))
  {
    var all := es + [e];
    if EnteredAfterNotify(es, w) {
      var i, j :| 0 <= i < j < |es| && es[i] == NotifyAsr(w.id) && es[j] == EnterAsr(w);
      assert all[i] == es[i] && all[j] == es[j];
    }
    if NotifyAsr(w.id) in es && e == EnterAsr(w) {
      var i :| 0 <= i < |es| && es[i] == NotifyAsr(w.id);
      assert all[i] == es[i] && all[|es|] == e;
    }
    if EnteredAfterNotify(all, w) {
      var i, j :| 0 <= i < j < |all| && all[i] == NotifyAsr(w.id) && all[j] == EnterAsr(w);
      assert es[i] == all[i];
      assert j < |es| ==> es[j] == all[j];
    }
  }

  lemma EnterHistory(es: seq<Event>, w: Waiter)
    requires IsRun(es)
    ensures w.id in After(es).notified <==> NotifyAsr(w.id) in es
    ensures w !in After(es).asr ==> !EnteredAfterNotify(es, w)
  {
    HistoryHolds(es);
  }

  /** What the late flag records. */
  ghost predicate LateIs(s: System, w: Waiter, late: bool) {
    w in s.asr && s.asr[w].AsrBlocked? ==> s.asr[w].late == late
  }

  lemma LateStep(s: System, e: Event, w: Waiter, late: bool)
    requires CanStep(s, e)
    requires LateIs(s, w, late) && (w !in s.asr ==> !late)
    ensures LateIs(Step(s, e), w, late || (w.id in s.notified && e == EnterAsr(w)))
  {
  }

  lemma {:induction false} LateMeansAfterNotify(es: seq<Event>, w: Waiter)
    requires IsRun(es)
    ensures LateIs(After(es), w, EnteredAfterNotify(es, w))
    decreases |es|
  {
    if es == [] {
    } else {
      hide *;
      var es', e := es[..|es| - 1], es[|es| - 1];
      assert es == es' + [e];
      RunPrefix(es', e);
      LateMeansAfterNotify(es', w);
      EnterHistory(es', w);
      AfterNotifySnoc(es', e, w);
      LateStep(After(es'), e, w, EnteredAfterNotify(es', w));
      AfterStep(es', e);
    }
  }

  /**
   * Whatever the order of insertion and notification: a notified call that blocked can proceed exactly when it came
   * first.
   */
  lemma StuckExactlyWhenLate(es: seq<Event>, w: Waiter)
    requires IsRun(es) && OncePerId(es)
    requires w in After(es).asr && After(es).asr[w].AsrBlocked? && NotifyAsr(w.id) in es
    ensures CanStep(After(es), ReceiveAsr(w)) <==> !EnteredAfterNotify(es, w)
  {
    hide After, IsRun, OncePerId, EnteredAfterNotify;
    assert w.id in After(es).notified by {
      HistoryHolds(es);
    }
    AlwaysSyncChannels(es);
    LateMeansAfterNotify(es, w);
  }

  lemma RunSnoc(es: seq<Event>, e: Event)
    requires IsRun(es) && CanStep(After(es), e)
    ensures IsRun(es + [e])
  {
    var all := es + [e];
    assert all[..|es|] == es;
    assert forall k :: 0 <= k < |es| ==> all[..k] == es[..k] && all[k] == es[k];
  }

  /** Notifying before inserting can leave a WaitForAsr call blocked although both have happened. */
  lemma NotifyFirstLosesTheWakeup(id: ProposeId, r: string)
    ensures var w := Waiter(id, 0);
            var es := [NotifyAsr(id)] + [EnterAsr(w)] + [InsertEr(id, r)];
            && IsRun(es) && OncePerId(es)
            && w in After(es).asr && After(es).asr[w].AsrBlocked?
            && !CanStep(After(es), ReceiveAsr(w))
  {
    var w := Waiter(id, 0);
    var e0, e1, e2 := NotifyAsr(id), EnterAsr(w), InsertEr(id, r);
    var s1 := Step(Quiet, e0);
    var s2 := Step(s1, e1);
    assert CanStep(Quiet, e0) && CanStep(s1, e1) && CanStep(s2, e2);
    assert s2.asr[w] == AsrBlocked(true) && s2.tables.asrNotifiers[id] == Empty;
    assert Step(s2, e2).asr == s2.asr && Step(s2, e2).tables.asrNotifiers == s2.tables.asrNotifiers;
    hide After, IsRun, Step;
    ThreeSteps(e0, e1, e2);
  }

  lemma ThreeSteps(e0: Event, e1: Event, e2: Event)
    requires CanStep(Quiet, e0) && CanStep(Step(Quiet, e0), e1) && CanStep(Step(Step(Quiet, e0), e1), e2)
    ensures IsRun([e0] + [e1] + [e2])
    ensures After([e0] + [e1] + [e2]) == Step(Step(Step(Quiet, e0), e1), e2)
  {
    hide Step, CanStep;
    assert [] + [e0] == [e0];
    AfterStep([], e0);
    AfterStep([e0], e1);
    AfterStep([e0] + [e1], e2);
    RunSnoc([], e0);
    RunSnoc([e0], e1);
    RunSnoc([e0] + [e1], e2);
  }

  lemma {:induction false} AlwaysResultChannels(es: seq<Event>)
    requires IsRun(es) && SendsOncePerId(es) && OneErCallPerId(es)
    ensures ResultChannels(After(es))
    decreases |es|
  {
    if es == [] {
    } else {
      hide *;
      var es', e := es[..|es| - 1], es[|es| - 1];
      assert es == es' + [e];
      RunPrefix(es', e);
      DisciplinePrefix(es', e);
      NextSendIsFirst(es', e);
      AlwaysResultChannels(es');
      AlwaysSound(es');
      NextIsFirstErCall(es', e);
      ResultChannelsKept(After(es'), e);
      AfterStep(es', e);
    }
  }

  /** A result was inserted for id and a WaitForAsr call for it has returned. */
  ghost predicate CleanedUp(es: seq<Event>, id: ProposeId) {
    InsertedIn(es, id) && Completed(After(es), id)
  }

  /** w's WaitForEr call came after its result was inserted and a WaitForAsr call for its id had returned. */
  ghost predicate CalledAfterSync(es: seq<Event>, w: Waiter) {
    exists j :: 0 <= j < |es| && es[j] == EnterEr(w) && CleanedUp(es[..j], w.id)
  }

  lemma CalledAfterSyncSnoc(es: seq<Event>, e: Event, w: Waiter)
    ensures CalledAfterSync(es + [e], w) <==> CalledAfterSync(es, w) || (CleanedUp(es, w.id) && e == EnterEr(w))
  {
    hide CleanedUp;
    var all := es + [e];
    assert all[..|es|] == es && all[|es|] == e;
    assert forall j :: 0 <= j < |es| ==> all[..j] == es[..j] && all[j] == es[j];
    if CalledAfterSync(es, w) {
      var j :| 0 <= j < |es| && es[j] == EnterEr(w) && CleanedUp(es[..j], w.id);
      assert all[j] == EnterEr(w) && CleanedUp(all[..j], w.id);
    }
  }

  lemma CleanedUpExactly(es: seq<Event>, id: ProposeId)
    requires IsRun(es)
    ensures CleanedUp(es, id) <==> id in After(es).synced && id in After(es).inserted
  {
    hide IsRun, After, Completed;
    SyncedExactly(es, id);
    HistoryHolds(es);
  }

  /** What the late flag of a WaitForEr call records, while the call is blocked. */
  ghost predicate ErLateIs(s: System, w: Waiter, late: bool) {
    if w in s.er then s.er[w].ErBlocked? ==> s.er[w].late == late else !late
  }

  lemma ErLateStep(s: System, e: Event, w: Waiter, late: bool)
    requires CanStep(s, e) && ErLateIs(s, w, late)
    ensures ErLateIs(Step(s, e), w, late || (w.id in s.synced && w.id in s.inserted && e == EnterEr(w)))
  {
  }

  lemma {:induction false} ErLateMeansAfterSync(es: seq<Event>, w: Waiter)
    requires IsRun(es)
    ensures ErLateIs(After(es), w, CalledAfterSync(es, w))
    decreases |es|
  {
    if es == [] {
    } else {
      hide *;
      var es', e := es[..|es| - 1], es[|es| - 1];
      assert es == es' + [e];
      RunPrefix(es', e);
      ErLateMeansAfterSync(es', w);
      CleanedUpExactly(es', w.id);
      CalledAfterSyncSnoc(es', e, w);
      ErLateStep(After(es'), e, w, CalledAfterSync(es', w));
      AfterStep(es', e);
    }
  }

  /**
   * Whatever the order of insertion and notification: a WaitForEr call whose result is inserted is stuck exactly when
   * it came after that insertion and after the sync of its id had returned.
   */
  lemma ErStuckExactlyWhenLate(es: seq<Event>, w: Waiter)
    requires IsRun(es) && SendsOncePerId(es) && OneErCallPerId(es)
    requires w in After(es).er && After(es).er[w].ErBlocked? && InsertedIn(es, w.id)
    ensures CanStep(After(es), ReceiveEr(w)) <==> !CalledAfterSync(es, w)
  {
    hide After, IsRun, SendsOncePerId, OneErCallPerId, CalledAfterSync;
    assert w.id in After(es).inserted by {
      HistoryHolds(es);
    }
    AlwaysResultChannels(es);
    ErLateMeansAfterSync(es, w);
  }

  lemma SyncThenCall(id: ProposeId, w: Waiter, s2: System)
    requires w.id == id && w !in s2.asr && w !in s2.er
    requires Settled(s2.tables, id) && id !in s2.tables.erNotifiers
    ensures var s3 := Step(s2, EnterAsr(w));
            var s4 := Step(s3, EnterEr(w));
            && CanStep(s2, EnterAsr(w)) && CanStep(s3, EnterEr(w))
            && w in s4.er && s4.er[w].ErBlocked? && !CanStep(s4, ReceiveEr(w))
  {
  }

  /** The buffer clean-up of a completed sync can leave a later WaitForEr call blocked for good. */
  lemma SyncFirstLosesTheResult(id: ProposeId, r: string)
    ensures var w := Waiter(id, 0);
            var es := [InsertEr(id, r)] + [NotifyAsr(id)] + [EnterAsr(w)] + [EnterEr(w)];
            && IsRun(es) && OncePerId(es) && InsertFirst(es) && OneErCallPerId(es)
            && w in After(es).er && After(es).er[w].ErBlocked?
            && !CanStep(After(es), ReceiveEr(w))
  {
    var w := Waiter(id, 0);
    var e0, e1, e2, e3 := InsertEr(id, r), NotifyAsr(id), EnterAsr(w), EnterEr(w);
    var s2 := Step(Step(Quiet, e0), e1);
    assert CanStep(Quiet, e0) && CanStep(Step(Quiet, e0), e1) && Settled(s2.tables, id);
    hide *;
    SyncThenCall(id, w, s2);
    ThreeSteps(e0, e1, e2);
    AfterStep([e0] + [e1] + [e2], e3);
    RunSnoc([e0] + [e1] + [e2], e3);
    InsertThenNotify(id, r, w);
  }

  lemma InsertThenNotify(id: ProposeId, r: string, w: Waiter)
    ensures var es := [InsertEr(id, r)] + [NotifyAsr(id)] + [EnterAsr(w)] + [EnterEr(w)];
            OncePerId(es) && InsertFirst(es) && OneErCallPerId(es)
  {
    var es := [InsertEr(id, r)] + [NotifyAsr(id)] + [EnterAsr(w)] + [EnterEr(w)];
    assert es[..1][0].InsertEr?;
  }
}
