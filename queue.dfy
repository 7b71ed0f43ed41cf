/** The rate-limited outbound queue (class MessageQueue and the RATE_LIMIT
    settings of stumblebot.js).

    The two setTimeout calls of processQueue are replaced by explicit events:
    ProcessQueue(now) pops the head and says how long to wait before sending
    it; CompleteSend(now, ok) is the end of that wait, records the outcome of
    the send and says after how many milliseconds ProcessQueue runs again. */
module Queue {
  import opened Messages

  const DEFAULT_MESSAGE_DELAY := 1200
  const DEFAULT_PRIORITY_DELAY := 500

  /** A queued entry; `timestamp` is the clock reading at enqueue time. */
  datatype Message = Message(data: Payload, isPriority: bool, timestamp: int)

  /** A drain step: `message` was popped and is sent after `wait` milliseconds. */
  datatype Dispatch = Dispatch(message: Message, wait: int)

  /** An argument of configureRateLimit as JavaScript sees it: a number
      (fractions are not modelled), NaN, or a value of another type. */
  datatype JsValue = Number(n: int) | NotANumber | NotNumber

  /** `typeof v === 'number' && v > 0`; NaN fails the comparison. */
  predicate AcceptedDelay(v: JsValue)
  {
    v.Number? && v.n > 0
  }

  /** The value a RATE_LIMIT entry holds after configureRateLimit was given v. */
  function Reconfigured(current: int, v: JsValue): (r: int)
    ensures AcceptedDelay(v) ==> r == v.n
    ensures !AcceptedDelay(v) ==> r == current
    ensures current > 0 ==> r > 0
  {
    if AcceptedDelay(v) then v.n else current
  }

  /** The delay constant of a message's class. */
  function ClassDelay(isPriority: bool, messageDelay: int, priorityDelay: int): int
  {
    if isPriority then priorityDelay else messageDelay
  }

  /** Math.max(0, classDelay - (now - lastSentTime)): the send happens at the
      earliest moment that is at least classDelay after the last send. */
  function SendWait(classDelay: int, lastSentTime: int, now: int): (w: int)
    ensures w >= 0 && now + w >= lastSentTime + classDelay
    ensures w == 0 || now + w == lastSentTime + classDelay
    ensures now >= lastSentTime && classDelay >= 0 ==> w <= classDelay
  {
    var gap := classDelay - (now - lastSentTime);
    if gap > 0 then gap else 0
  }

  /** Index of the first normal (non-priority) entry, or |q| if there is none. */
  function FirstNormal(q: seq<Message>): (i: nat)
    ensures i <= |q|
    ensures forall j :: 0 <= j < i ==> q[j].isPriority
    ensures i < |q| ==> !q[i].isPriority
  {
    if q == [] || !q[0].isPriority then 0 else 1 + FirstNormal(q[1..])
  }

  /** Every priority entry stands before every normal entry. */
  ghost predicate PriorityFirst(q: seq<Message>)
  {
    forall i, j :: 0 <= i < j < |q| && !q[i].isPriority ==> !q[j].isPriority
  }

  /** Where addMessage puts m: a priority message into a non-empty queue goes
      to the first normal entry's index, or to 0 when every entry is priority;
      everything else goes to the end. */
  function InsertIndex(q: seq<Message>, m: Message): (k: nat)
    ensures k <= |q|
  {
    if m.isPriority && |q| > 0 then
      (if FirstNormal(q) < |q| then FirstNormal(q) else 0)
    else |q|
  }

  /** The queue after addMessage has inserted m. */
  function Placed(q: seq<Message>, m: Message): (r: seq<Message>)
    ensures |r| == |q| + 1
    ensures r[InsertIndex(q, m)] == m
    ensures forall i :: 0 <= i < |q| ==> r[if i < InsertIndex(q, m) then i else i + 1] == q[i]
  {
    var k := InsertIndex(q, m);
    q[..k] + [m] + q[k..]
  }

  /** The entries of one class, in queue order. */
  function OfClass(q: seq<Message>, priority: bool): (r: seq<Message>)
    ensures |r| <= |q|
  {
    if q == [] then []
    else (if q[0].isPriority == priority then [q[0]] else []) + OfClass(q[1..], priority)
  }

  lemma {:induction false} OfClassConcat(a: seq<Message>, b: seq<Message>, priority: bool)
    ensures OfClass(a + b, priority) == OfClass(a, priority) + OfClass(b, priority)
  {
    if a == [] {
      assert a + b == b;
    } else {
      assert (a + b)[0] == a[0] && (a + b)[1..] == a[1..] + b;
      OfClassConcat(a[1..], b, priority);
    }
  }

  lemma {:induction false} OfClassAll(q: seq<Message>, priority: bool)
    requires forall j :: 0 <= j < |q| ==> q[j].isPriority == priority
    ensures OfClass(q, priority) == q && OfClass(q, !priority) == []
  {
    if q != [] {
      OfClassAll(q[1..], priority);
      assert q == [q[0]] + q[1..];
    }
  }

  /** A normal message, or any message into an empty queue, is appended. */
  lemma PlacedAppends(q: seq<Message>, m: Message)
    requires !m.isPriority || q == []
    ensures Placed(q, m) == q + [m]
  {
  }

  /** A priority message into a queue that holds a normal entry lands right
      before the first normal entry, so it precedes every normal entry. */
  lemma PlacedBeforeNormals(q: seq<Message>, m: Message)
    requires m.isPriority && exists j :: 0 <= j < |q| && !q[j].isPriority
    ensures InsertIndex(q, m) == FirstNormal(q) < |q|
    ensures forall j :: 0 <= j < |q| && !q[j].isPriority ==> InsertIndex(q, m) <= j
    ensures PriorityFirst(q) ==>
              forall j :: InsertIndex(q, m) < j < |q| + 1 ==> !Placed(q, m)[j].isPriority
  {
    if PriorityFirst(q) {
      forall j | InsertIndex(q, m) < j < |q| + 1
        ensures !Placed(q, m)[j].isPriority
      {
        assert Placed(q, m)[j] == q[j - 1];
      }
    }
  }

  /** A priority message into a queue of priority entries only goes to the
      front, ahead of the priority entries already waiting. */
  lemma PlacedAllPriorityFront(q: seq<Message>, m: Message)
    requires m.isPriority && q != []
    requires forall j :: 0 <= j < |q| ==> q[j].isPriority
    ensures Placed(q, m) == [m] + q
  {
  }

  /** Two priority messages in a row leave the queue in reverse arrival order. */
  lemma PriorityBehindPriorityJumpsAhead(p1: Message, p2: Message)
    requires p1.isPriority && p2.isPriority
    ensures Placed(Placed([], p1), p2) == [p2, p1]
  {
  }

  /** addMessage keeps all priority entries ahead of all normal ones. */
  lemma PlacedKeepsPriorityFirst(q: seq<Message>, m: Message)
    requires PriorityFirst(q)
    ensures PriorityFirst(Placed(q, m))
  {
    var r := Placed(q, m);
    var k := InsertIndex(q, m);
    assert m.isPriority ==> forall x :: 0 <= x < k ==> q[x].isPriority;
    forall i, j | 0 <= i < j < |r| && r[j].isPriority
      ensures r[i].isPriority
    {
      assert r[i] == (if i < k then q[i] else if i == k then m else q[i - 1]);
      assert r[j] == (if j < k then q[j] else if j == k then m else q[j - 1]);
    }
  }

  /** Normal entries stay first-in first-out: addMessage appends a normal
      message to the normal class and leaves that class alone otherwise. */
  lemma PlacedNormalsFifo(q: seq<Message>, m: Message)
    ensures OfClass(Placed(q, m), false) == OfClass(q, false) + (if m.isPriority then [] else [m])
  {
    var k := InsertIndex(q, m);
    SplitJoin(q, k);
    OfClassConcat(q[..k], q[k..], false);
    OfClassConcat(q[..k] + [m], q[k..], false);
    OfClassConcat(q[..k], [m], false);
    if !m.isPriority {
      assert q[k..] == [];
    }
  }

  /** Behind the first normal entry there are only normal entries. */
  lemma NormalsAfterFirstNormal(q: seq<Message>)
    requires PriorityFirst(q) && FirstNormal(q) < |q|
    ensures OfClass(q[FirstNormal(q)..], true) == []
  {
    var f := FirstNormal(q);
    var back := q[f..];
    forall x | 0 <= x < |back| ensures !back[x].isPriority {
      assert back[x] == q[f + x];
    }
    OfClassAll(back, false);
  }

  /** In a queue with priority entries first and at least one normal entry,
      a priority message joins the end of the priority class. */
  lemma PlacedPrioritiesFifo(q: seq<Message>, m: Message)
    requires PriorityFirst(q) && m.isPriority && FirstNormal(q) < |q|
    ensures OfClass(Placed(q, m), true) == OfClass(q, true) + [m]
  {
    NormalsAfterFirstNormal(q);
    PlacedAheadOfNormals(q, m);
  }

  lemma PlacedAheadOfNormals(q: seq<Message>, m: Message)
    requires m.isPriority && FirstNormal(q) < |q|
    requires OfClass(q[FirstNormal(q)..], true) == []
    ensures OfClass(Placed(q, m), true) == OfClass(q, true) + [m]
  {
    var k := InsertIndex(q, m);
    var front, back := q[..k], q[k..];
    SplitJoin(q, k);
    JoinsPriorityClass(front, back, m);
  }

  /** A queue is its two halves around any index. */
  lemma SplitJoin(q: seq<Message>, k: nat)
    requires k <= |q|
    ensures q[..k] + q[k..] == q
  {
  }

  /** A priority message put in front of normal entries only ends its class. */
  lemma JoinsPriorityClass(front: seq<Message>, back: seq<Message>, m: Message)
    requires m.isPriority && OfClass(back, true) == []
    ensures OfClass(front + [m] + back, true) == OfClass(front + back, true) + [m]
  {
    OfClassConcat(front, back, true);
    OfClassConcat(front + [m], back, true);
    OfClassConcat(front, [m], true);
  }

  /** With no normal entry queued, a priority message heads the priority class. */
  lemma PlacedPrioritiesLifo(q: seq<Message>, m: Message)
    requires m.isPriority && FirstNormal(q) == |q|
    ensures OfClass(Placed(q, m), true) == [m] + OfClass(q, true)
  {
    assert Placed(q, m) == [m] + q by {
      assert InsertIndex(q, m) == 0;
      SplitJoin(q, 0);
      assert q[..0] == [];
    }
    OfClassConcat([m], q, true);
  }

  /** A priority delay and a normal delay are both positive. */
  class RateLimit {
    var messageDelay: int
    var priorityDelay: int

    ghost predicate Valid()
      reads this
    {
      messageDelay > 0 && priorityDelay > 0
    }

    constructor ()
      ensures Valid()
      ensures messageDelay == DEFAULT_MESSAGE_DELAY && priorityDelay == DEFAULT_PRIORITY_DELAY
    {
      messageDelay := DEFAULT_MESSAGE_DELAY;
      priorityDelay := DEFAULT_PRIORITY_DELAY;
    }
  }

  /** The for loop of addMessage: the first normal entry's index, or 0. */
  method FindInsertIndex(q: seq<Message>) returns (insertIndex: nat)
    ensures (exists j :: 0 <= j < |q| && !q[j].isPriority) ==>
              insertIndex < |q| && !q[insertIndex].isPriority &&
              forall j :: 0 <= j < insertIndex ==> q[j].isPriority
    ensures (forall j :: 0 <= j < |q| ==> q[j].isPriority) ==> insertIndex == 0
  {
    insertIndex := 0;
    var i := 0;
    while i < |q|
      invariant 0 <= i <= |q|
      invariant insertIndex == 0
      invariant forall j :: 0 <= j < i ==> q[j].isPriority
    {
      if !q[i].isPriority {
        insertIndex := i;
        break;
      }
      i := i + 1;
    }
  }

  lemma FindInsertIndexAgrees(q: seq<Message>, m: Message, k: nat)
    requires m.isPriority && |q| > 0
    requires (exists j :: 0 <= j < |q| && !q[j].isPriority) ==>
               k < |q| && !q[k].isPriority && forall j :: 0 <= j < k ==> q[j].isPriority
    requires (forall j :: 0 <= j < |q| ==> q[j].isPriority) ==> k == 0
    ensures k == InsertIndex(q, m)
  {
    var f := FirstNormal(q);
    if f < |q| {
      assert !q[f].isPriority && !q[k].isPriority;
    }
  }

  class MessageQueue {
    var queue: seq<Message>
    var processing: bool
    var lastSentTime: int
    /** The message popped by the last drain step whose send is still pending
        (the `message` captured by processQueue's timer). */
    var inFlight: Option<Message>
    /** The RATE_LIMIT settings, shared with configureRateLimit. */
    const limits: RateLimit

    /** No drain runs unless one is needed, and priority entries come first. */
    ghost predicate Valid()
      reads this, limits
    {
      Ordered() && (!processing ==> queue == [] && inFlight == None)
    }

    /** The part of Valid that holds in the middle of addMessage as well. */
    ghost predicate Ordered()
      reads this, limits
    {
      limits.Valid() && PriorityFirst(queue)
    }

    constructor (limits: RateLimit)
      requires limits.Valid()
      ensures Valid() && this.limits == limits
      ensures queue == [] && !processing && lastSentTime == 0 && inFlight == None
    {
      queue := [];
      processing := false;
      lastSentTime := 0;
      inFlight := None;
      this.limits := limits;
    }

    /** configureRateLimit: each delay is replaced only by a positive number. */
    static method ConfigureRateLimit(limits: RateLimit, messageDelay: JsValue, priorityDelay: JsValue)
      modifies limits
      ensures limits.messageDelay == Reconfigured(old(limits.messageDelay), messageDelay)
      ensures limits.priorityDelay == Reconfigured(old(limits.priorityDelay), priorityDelay)
      ensures old(limits.Valid()) ==> limits.Valid()
    {
      if messageDelay.Number? && messageDelay.n > 0 {
        limits.messageDelay := messageDelay.n;
      }
      if priorityDelay.Number? && priorityDelay.n > 0 {
        limits.priorityDelay := priorityDelay.n;
      }
    }

    /** The delay of a message's class under the current settings. */
    function DelayOf(m: Message): int
      reads limits
    {
      ClassDelay(m.isPriority, limits.messageDelay, limits.priorityDelay)
    }

    /** addMessage: insert the message by priority, and start a drain step if
        none is running; `started` is that step. */
    method AddMessage(data: Payload, isPriority: bool, now: int) returns (started: Option<Dispatch>)
      requires Valid()
      modifies this
      ensures Valid()
      ensures var m := Message(data, isPriority, now);
        if old(processing) then
          && queue == Placed(old(queue), m)
          && started == None && inFlight == old(inFlight)
          && processing && lastSentTime == old(lastSentTime)
        else
          && old(queue) == [] && queue == []
          && started == Some(Dispatch(m, SendWait(DelayOf(m), old(lastSentTime), now)))
          && inFlight == Some(m)
          && processing && lastSentTime == old(lastSentTime)
    {
      var message := Message(data, isPriority, now);
      PlacedKeepsPriorityFirst(queue, message);
      if isPriority && |queue| > 0 {
        var insertIndex := FindInsertIndex(queue);
        FindInsertIndexAgrees(queue, message, insertIndex);
        queue := queue[..insertIndex] + [message] + queue[insertIndex..];
      } else {
        queue := queue + [message];
      }
      if !processing {
        started := ProcessQueue(now);
      } else {
        started := None;
      }
    }

    /** processQueue up to its first setTimeout: stop when the queue is empty,
        otherwise pop the head and compute the wait before it is sent. */
    method ProcessQueue(now: int) returns (started: Option<Dispatch>)
      requires Ordered() && inFlight == None
      modifies this
      ensures Valid() && lastSentTime == old(lastSentTime)
      ensures old(queue) == [] ==>
                started == None && !processing && queue == [] && inFlight == None
      ensures old(queue) != [] ==>
                && processing
                && queue == old(queue)[1..]
                && inFlight == Some(old(queue)[0])
                && started == Some(Dispatch(old(queue)[0],
                     SendWait(DelayOf(old(queue)[0]), lastSentTime, now)))
    {
      if |queue| == 0 {
        processing := false;
        started := None;
        return;
      }
      processing := true;
      var message := queue[0];
      queue := queue[1..];
      var timeSinceLastSend := now - lastSentTime;
      var classDelay := if message.isPriority then limits.priorityDelay else limits.messageDelay;
      var delay := if classDelay - timeSinceLastSend > 0 then classDelay - timeSinceLastSend else 0;
      inFlight := Some(message);
      started := Some(Dispatch(message, delay));
    }

    /** The body of processQueue's first timer: the send has been tried at
        `now`; `ok` says whether it succeeded. A failure is swallowed. The
        result is the delay after which ProcessQueue runs again. */
    method CompleteSend(now: int, ok: bool) returns (nextDelay: int)
      requires Valid() && inFlight.Some?
      modifies this
      ensures Valid()
      ensures nextDelay == DelayOf(old(inFlight).value) && nextDelay > 0
      ensures lastSentTime == (if ok then now else old(lastSentTime))
      ensures queue == old(queue) && processing && inFlight == None
    {
      var message := inFlight.value;
      if ok {
        lastSentTime := now;
      }
      inFlight := None;
      nextDelay := if message.isPriority then limits.priorityDelay else limits.messageDelay;
    }
  }

  /** Two consecutive sends: the first at t1 completed, leaving lastSentTime
      at lastSent (t1 when it succeeded, an earlier send otherwise), and
      scheduled the next step d1 later; that step runs at t2 and waits for
      class delay d2. The second send is at least d1 after the first in any
      case, and also at least d2 after it when the first succeeded. */
  lemma SendSpacing(d1: int, d2: int, t1: int, t2: int, lastSent: int)
    requires t2 >= t1 + d1
    requires lastSent <= t1
    ensures t2 + SendWait(d2, lastSent, t2) >= t1 + d1
    ensures lastSent == t1 ==> t2 + SendWait(d2, lastSent, t2) >= t1 + d2
  {
  }
}
