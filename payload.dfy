/**
 * The shape of a webhook delivery as the POST handler traverses it, and the
 * messages that traversal hands to a handler. A field the handler reads
 * without a fallback is optional here; reading it when it is missing throws,
 * which ends the traversal (a `fault`).
 */
module Payload {
  import opened Wrappers

  /** The `type` of a message: `image`, `text` (with its optional `text.body`), or any other type. */
  datatype MessageKind =
    | ImageKind
    | TextKind(body: Option<string>)
    | OtherKind

  datatype Message = Message(from: string, kind: MessageKind)

  datatype ChangeValue = ChangeValue(messages: Option<seq<Message>>)

  datatype Change = Change(field: string, value: Option<ChangeValue>)

  datatype Entry = Entry(changes: Option<seq<Change>>)

  datatype Body = Body(objectType: string, entry: Option<seq<Entry>>)

  const BusinessAccount := "whatsapp_business_account"
  const MessagesField := "messages"

  /** The messages handed to a handler so far, and whether an exception stopped the traversal. */
  datatype Walk = Walk(handled: seq<Message>, fault: bool)

  /** A message the dispatcher passes to the image or text handler. */
  predicate Dispatchable(m: Message) {
    m.kind.ImageKind? || (m.kind.TextKind? && m.kind.body.Some?)
  }

  /** Sequential composition: after a fault nothing further runs. */
  function Then(a: Walk, b: Walk): Walk {
    if a.fault then a else Walk(a.handled + b.handled, b.fault)
  }

  /** A `for ... of` loop over `xs`, each element traversed by `step`. */
  function WalkAll<T>(xs: seq<T>, step: T -> Walk): Walk
    decreases |xs|
  {
    if xs == [] then Walk([], false) else Then(WalkAll(xs[..|xs| - 1], step), step(xs[|xs| - 1]))
  }

  /** The dispatch of one message: image and text go to their handlers, a text without a body throws. */
  function MessageWalk(m: Message): Walk {
    match m.kind
    case ImageKind => Walk([m], false)
    case TextKind(body) => if body.Some? then Walk([m], false) else Walk([], true)
    case OtherKind => Walk([], false)
  }

  /** A message is handed over exactly when it is dispatchable, and only a text without a body throws. */
  lemma MessageWalkCases(m: Message)
    ensures MessageWalk(m).fault <==> m.kind.TextKind? && m.kind.body.None?
    ensures Dispatchable(m) ==> MessageWalk(m) == Walk([m], false)
    ensures !Dispatchable(m) ==> MessageWalk(m).handled == []
  {
  }

  /** `handleMessages(value)`: `value.messages || []`, which throws when `value` is missing. */
  function ValueWalk(value: Option<ChangeValue>): (r: Walk)
    ensures value.None? ==> r.fault && r.handled == []
    ensures value.Some? && value.value.messages.None? ==> r == Walk([], false)
  {
    match value
    case None => Walk([], true)
    case Some(v) => WalkAll(v.messages.GetOr([]), MessageWalk)
  }

  /** One change of an entry: only a `messages` change is traversed. */
  function ChangeWalk(c: Change): (r: Walk)
    ensures c.field != MessagesField ==> r == Walk([], false)
    ensures c.field == MessagesField && c.value.None? ==> r.fault
  {
    if c.field == MessagesField then ValueWalk(c.value) else Walk([], false)
  }

  /** One entry of a delivery: `entry.changes` throws when missing. */
  function EntryWalk(e: Entry): (r: Walk)
    ensures e.changes.None? ==> r.fault && r.handled == []
    ensures e.changes == Some([]) ==> r == Walk([], false)
  {
    match e.changes
    case None => Walk([], true)
    case Some(cs) => WalkAll(cs, ChangeWalk)
  }

  /** The whole traversal of the POST handler; `None` is a body that is not JSON. */
  function DeliveryWalk(body: Option<Body>): (r: Walk)
    ensures body.None? ==> r.fault && r.handled == []
    ensures body.Some? && body.value.objectType != BusinessAccount ==> r == Walk([], false)
    ensures body.Some? && body.value.objectType == BusinessAccount && body.value.entry.None? ==> r.fault
  {
    match body
    case None => Walk([], true)
    case Some(b) =>
      if b.objectType != BusinessAccount then Walk([], false)
      else
        match b.entry
        case None => Walk([], true)
        case Some(es) => WalkAll(es, EntryWalk)
  }

  lemma ThenAssociative(a: Walk, b: Walk, c: Walk)
    ensures Then(Then(a, b), c) == Then(a, Then(b, c))
  {
    if !a.fault && !b.fault {
      assert a.handled + b.handled + c.handled == a.handled + (b.handled + c.handled);
    }
  }

  /** Traversing a concatenation is traversing its parts one after the other. */
  lemma {:induction false} WalkAllAppend<T>(xs: seq<T>, ys: seq<T>, step: T -> Walk)
    ensures WalkAll(xs + ys, step) == Then(WalkAll(xs, step), WalkAll(ys, step))
    decreases |ys|
  {
    if ys == [] {
      assert xs + ys == xs;
      assert WalkAll(xs, step).handled + [] == WalkAll(xs, step).handled;
    } else {
      var init := ys[..|ys| - 1];
      var last := ys[|ys| - 1];
      assert (xs + ys)[..|xs + ys| - 1] == xs + init;
      WalkAllAppend(xs, init, step);
      ThenAssociative(WalkAll(xs, step), WalkAll(init, step), step(last));
    }
  }

  /** Once a prefix has thrown, the rest of the sequence is never reached. */
  lemma {:induction false} FaultStops<T>(xs: seq<T>, n: nat, step: T -> Walk)
    requires n <= |xs| && WalkAll(xs[..n], step).fault
    ensures WalkAll(xs, step) == WalkAll(xs[..n], step)
    decreases |xs| - n
  {
    if n == |xs| {
      assert xs[..n] == xs;
    } else {
      var init := xs[..|xs| - 1];
      assert init[..n] == xs[..n];
      FaultStops(init, n, step);
    }
  }

  /** Only image messages and text messages with a body reach a handler. */
  lemma {:induction false} MessagesDispatchable(ms: seq<Message>)
    ensures forall m <- WalkAll(ms, MessageWalk).handled :: Dispatchable(m)
    decreases |ms|
  {
    if ms != [] {
      MessagesDispatchable(ms[..|ms| - 1]);
    }
  }

  /** Messages of an image or text type are all handled, in the order they arrive. */
  lemma {:induction false} MessagesInOrder(ms: seq<Message>)
    requires forall m <- ms :: Dispatchable(m)
    ensures WalkAll(ms, MessageWalk) == Walk(ms, false)
    decreases |ms|
  {
    if ms != [] {
      MessagesInOrder(ms[..|ms| - 1]);
      assert ms[|ms| - 1] in ms;
      assert ms[..|ms| - 1] + [ms[|ms| - 1]] == ms;
    }
  }

  /** A message of any other type is skipped without effect, wherever it stands. */
  lemma OtherTypesIgnored(before: seq<Message>, m: Message, after: seq<Message>)
    requires m.kind.OtherKind?
    ensures WalkAll(before + [m] + after, MessageWalk) == WalkAll(before + after, MessageWalk)
  {
    WalkAllAppend(before + [m], after, MessageWalk);
    WalkAllAppend(before, [m], MessageWalk);
    WalkAllAppend(before, after, MessageWalk);
    assert WalkAll([m], MessageWalk) == Walk([], false) by {
      assert [m][..0] == [];
    }
    assert WalkAll(before, MessageWalk).handled + [] == WalkAll(before, MessageWalk).handled;
  }

  /** A change whose `messages` list is missing handles nothing and does not throw. */
  lemma MissingMessagesAreEmpty()
    ensures ChangeWalk(Change(MessagesField, Some(ChangeValue(None)))) == Walk([], false)
  {
  }

  /** Only image and text messages of `messages` changes of a business-account delivery are handled. */
  lemma {:induction false} DeliveryDispatchable(body: Option<Body>)
    ensures forall m <- DeliveryWalk(body).handled :: Dispatchable(m)
  {
    forall v: Option<ChangeValue> ensures forall m <- ValueWalk(v).handled :: Dispatchable(m) {
      if v.Some? { MessagesDispatchable(v.value.messages.GetOr([])); }
    }
    forall cs: seq<Change> ensures forall m <- WalkAll(cs, ChangeWalk).handled :: Dispatchable(m) {
      AllDispatchable(cs, ChangeWalk);
    }
    if body.Some? && body.value.objectType == BusinessAccount && body.value.entry.Some? {
      AllDispatchable(body.value.entry.value, EntryWalk);
    }
  }

  lemma {:induction false} AllDispatchable<T>(xs: seq<T>, step: T -> Walk)
    requires forall x :: forall m <- step(x).handled :: Dispatchable(m)
    ensures forall m <- WalkAll(xs, step).handled :: Dispatchable(m)
    decreases |xs|
  {
    if xs != [] {
      AllDispatchable(xs[..|xs| - 1], step);
    }
  }
}
