/**
 * The chat webhook: the verification handshake (GET), the delivery handler
 * (POST) and the per-message conversation controller. Each handler is
 * specified by a step function on the store's `Ledger` value, returning the
 * new ledger, the kind of reply sent to the sender, and the calls made to
 * the identity and calendar providers; the methods perform the same steps
 * on a `Database`.
 */
module Webhook {
  import opened Wrappers
  import opened Text
  import opened GoogleAuth
  import opened Store
  import opened Extraction
  import opened Payload
  import opened Sequences

  // ---------------------------------------------------------------- GET

  datatype HttpResponse = HttpResponse(status: int, body: Option<string>)

  const Subscribe := "subscribe"

  /**
   * The verification handshake: the three `hub.*` query parameters and the
   * configured secret, each `None` when absent.
   */
  function Verify(mode: Option<string>, token: Option<string>, challenge: Option<string>,
                  secret: Option<string>): (r: HttpResponse)
    ensures r.status == 200 <==> mode == Some(Subscribe) && token.Some? && token == secret
    ensures r.status == 200 ==> r.body == challenge
    ensures r.status != 200 ==> r == HttpResponse(403, Some("Forbidden"))
  {
    if mode == Some(Subscribe) && token.Some? && token == secret then HttpResponse(200, challenge)
    else HttpResponse(403, Some("Forbidden"))
  }

  /** Without a configured secret no handshake succeeds. */
  lemma VerifyNeedsSecret(mode: Option<string>, token: Option<string>, challenge: Option<string>)
    ensures Verify(mode, token, challenge, None).status == 403
  {
  }

  // ------------------------------------------------------ text commands

  datatype Command = ConfirmCommand | CancelCommand | EditCommand | ChangeCommand | HelpCommand

  /** `message.text.body.toLowerCase().trim()`. */
  function Normalize(body: string): string {
    Trim(ToLower(body))
  }

  /**
   * The branch `handleTextMessage` takes; the first test that matches wins.
   */
  function Classify(body: string): Command {
    var t := Normalize(body);
    if t == "confirm" || t == "\U{2705} confirm" then ConfirmCommand
    else if t == "cancel" || t == "\U{274C} cancel" then CancelCommand
    else if t == "edit" || t == "\U{270F}\U{FE0F} edit" then EditCommand
    else if "change" <= t || "add" <= t then ChangeCommand
    else HelpCommand
  }

  /**
   * Confirm, cancel and edit need the whole normalized text to be the word,
   * with or without its emoji; a text starting with `change` or `add` asks
   * for a change; anything else gets help.
   */
  lemma ClassifyCommands(body: string)
    ensures Classify(body) == ConfirmCommand <==> Normalize(body) in {"confirm", "\U{2705} confirm"}
    ensures Classify(body) == CancelCommand <==> Normalize(body) in {"cancel", "\U{274C} cancel"}
    ensures Classify(body) == EditCommand <==> Normalize(body) in {"edit", "\U{270F}\U{FE0F} edit"}
    ensures Classify(body) == ChangeCommand <==>
              Normalize(body) !in {"confirm", "\U{2705} confirm", "cancel", "\U{274C} cancel",
                                   "edit", "\U{270F}\U{FE0F} edit"}
              && ("change" <= Normalize(body) || "add" <= Normalize(body))
    ensures Classify(body) == HelpCommand <==>
              Normalize(body) !in {"confirm", "\U{2705} confirm", "cancel", "\U{274C} cancel",
                                   "edit", "\U{270F}\U{FE0F} edit"}
              && !("change" <= Normalize(body)) && !("add" <= Normalize(body))
  {
  }

  /** Commands are case-insensitive: lower-casing the text never changes the branch. */
  lemma ClassifyIgnoresCase(body: string)
    ensures Classify(ToLower(body)) == Classify(body)
  {
    ToLowerIdempotent(body);
  }

  /** Commands ignore surrounding white space. */
  lemma ClassifyIgnoresPadding(before: string, body: string, after: string)
    requires AllSpace(before) && AllSpace(after)
    ensures Classify(before + body + after) == Classify(body)
  {
    ToLowerAppend(before + body, after);
    ToLowerAppend(before, body);
    TrimIgnoresPadding(ToLower(before), ToLower(body), ToLower(after));
  }

  /** The upper-case command selects confirm. */
  lemma ClassifyUpperCase()
    ensures Classify("CONFIRM") == ConfirmCommand
  {
    assert ToLower("CONFIRM") == "confirm";
    assert Trim("confirm") == "confirm";
  }

  /** A command followed by other words is not that command. */
  lemma ClassifyExactWords()
    ensures Classify("confirm it") == HelpCommand
  {
    var t := "confirm it";
    assert ToLower(t) == t;
    assert Trim(t) == t;
    assert t[1] == 'o' && t[0] == 'c' && |t| == 10;
  }

  // ------------------------------------------------- controller steps

  /** The kinds of reply the controller sends to the sender. */
  datatype Reply =
    | AuthLink             // "Welcome! ... please visit <auth url>"
    | EventSummary         // the extracted fields and the reply keywords
    | ImageError           // "Sorry, I couldn't process the image ..."
    | NoPendingEvent       // "No pending event found ..."
    | AuthenticateFirst    // "User not found. Please authenticate first."
    | EventCreated(calendarEventId: string)
    | CreateFailed         // "Sorry, I couldn't create the calendar event ..."
    | Cancelled            // "Event cancelled ..."
    | EditInstructions
    | EditComingSoon
    | HelpText
    | NoReply              // no handler ran for the message

  /** A call to an external provider made while handling a message. */
  datatype Call =
    | RefreshCall(refreshToken: string)
    | PublishCall(tokens: Tokens, request: InsertRequest)

  datatype Outcome = Outcome(state: Ledger, reply: Reply, calls: seq<Call>)

  /** The fields of a stored row that `confirmEvent` passes to `createCalendarEvent`. */
  function EventInputOfRow(row: EventRow): EventInput {
    EventInput(row.title, row.description, row.startDate, row.endDate, row.location, row.invitees)
  }

  /**
   * `handleImageMessage` after the image has been fetched and passed to the
   * extractor: `extraction` is the extractor's result (`None` when fetching,
   * resizing or extraction threw), `refreshed` the provider's answer to a
   * refresh (`None` when it threw), `now` the current time.
   */
  function ImageStep(s: Ledger, phone: string, extraction: Option<ExtractedEventDetails>,
                     refreshed: Option<RefreshResponse>, now: int): (r: Outcome)
    ensures |r.state.events| == |s.events| + (if r.reply == EventSummary then 1 else 0)
    ensures r.state.events[..|s.events|] == s.events
    ensures r.state.users.Keys == s.users.Keys
    ensures extraction.None? ==> r == Outcome(s, ImageError, [])
    ensures extraction.Some? && phone !in s.users ==> r == Outcome(s, AuthLink, [])
    ensures r.calls != [] <==> extraction.Some? && phone in s.users && s.users[phone].tokens.expiresAt < now
    ensures r.calls != [] ==> r.calls == [RefreshCall(s.users[phone].tokens.refreshToken)]
    ensures r.reply in {ImageError, AuthLink, EventSummary}
    ensures extraction.Some? && phone in s.users && (s.users[phone].tokens.expiresAt >= now || refreshed.Some?) ==>
              r.reply == EventSummary
    ensures extraction.Some? && phone in s.users && s.users[phone].tokens.expiresAt < now && refreshed.None? ==>
              r.state == s && r.reply == ImageError
    ensures r.calls == [] ==> r.state.users == s.users
    ensures forall p :: p in s.users && p != phone ==> r.state.users[p] == s.users[p]
    ensures LedgerValid(s) ==> LedgerValid(r.state)
  {
    if extraction.None? then Outcome(s, ImageError, [])
    else if phone !in s.users then Outcome(s, AuthLink, [])
    else
      var user := s.users[phone];
      var d := extraction.value;
      if user.tokens.expiresAt < now then
        var call := RefreshCall(user.tokens.refreshToken);
        match refreshed
        case None => Outcome(s, ImageError, [call])
        case Some(credentials) =>
          var s1 := SetTokens(s, phone, RefreshedTokens(user.tokens.refreshToken, credentials));
          Outcome(Insert(s1, user.id, phone, d.title, Some(d.description), d.startDate, d.endDate, Some(d.location), now),
                  EventSummary, [call])
      else
        Outcome(Insert(s, user.id, phone, d.title, Some(d.description), d.startDate, d.endDate, Some(d.location), now),
                EventSummary, [])
  }

  /** A stored image yields one new pending row with the extracted fields, owned by the sender. */
  lemma ImageStoresPendingRow(s: Ledger, phone: string, d: ExtractedEventDetails,
                              refreshed: Option<RefreshResponse>, now: int)
    requires ImageStep(s, phone, Some(d), refreshed, now).reply == EventSummary
    ensures var row := ImageStep(s, phone, Some(d), refreshed, now).state.events[|s.events|];
            && PendingFor(row, phone) && row.userId == s.users[phone].id && row.createdAt == now
            && row.title == d.title && row.description == Some(d.description)
            && row.startDate == d.startDate && row.endDate == d.endDate
            && row.location == Some(d.location) && row.invitees.None?
  {
  }

  /** A refresh stores the provider's access token and expiry, keeping the refresh token unless rotated. */
  lemma ImageRefreshPersisted(s: Ledger, phone: string, d: ExtractedEventDetails,
                              credentials: RefreshResponse, now: int)
    requires phone in s.users && s.users[phone].tokens.expiresAt < now
    ensures var t := ImageStep(s, phone, Some(d), Some(credentials), now).state.users[phone].tokens;
            && t == RefreshedTokens(s.users[phone].tokens.refreshToken, credentials)
            && t.accessToken == credentials.accessToken && t.expiresAt == credentials.expiryDate
    ensures ImageStep(s, phone, Some(d), Some(credentials), now).state.users[phone] ==
            s.users[phone].(tokens := RefreshedTokens(s.users[phone].tokens.refreshToken, credentials))
  {
  }

  /**
   * `confirmEvent`: `published` is the calendar insert's result (the new
   * event's identifier, `None` when the call threw). The stored tokens are
   * used as they are, expired or not.
   */
  function ConfirmStep(s: Ledger, phone: string, published: Option<string>): (r: Outcome)
    ensures r.state.users == s.users
    ensures LatestPending(s.events, phone).None? ==> r == Outcome(s, NoPendingEvent, [])
    ensures LatestPending(s.events, phone).Some? && phone !in s.users ==> r == Outcome(s, AuthenticateFirst, [])
    ensures r.calls != [] <==> LatestPending(s.events, phone).Some? && phone in s.users
    ensures r.calls != [] ==>
              var row := s.events[LatestPending(s.events, phone).value];
              r.calls == [PublishCall(s.users[phone].tokens, CalendarInsertRequest(EventInputOfRow(row)))]
    ensures r.reply.CreateFailed? ==> r.state == s
    ensures r.calls != [] && published.None? ==> r.reply == CreateFailed && r.state == s
    ensures r.reply.EventCreated? <==> r.calls != [] && published.Some?
  {
    match LatestPending(s.events, phone)
    case None => Outcome(s, NoPendingEvent, [])
    case Some(i) =>
      if phone !in s.users then Outcome(s, AuthenticateFirst, [])
      else
        var tokens := s.users[phone].tokens;
        var call := PublishCall(tokens, CalendarInsertRequest(EventInputOfRow(s.events[i])));
        match published
        case None => Outcome(s, CreateFailed, [call])
        case Some(id) => Outcome(s.(events := MarkConfirmed(s.events, s.events[i].id, id)), EventCreated(id), [call])
  }

  /** A successful confirm sets the calendar id of the latest pending row and changes no other row. */
  lemma ConfirmMarksLatest(s: Ledger, phone: string, calendarId: string)
    requires LedgerValid(s) && phone in s.users && LatestPending(s.events, phone).Some?
    ensures var i := LatestPending(s.events, phone).value;
            var r := ConfirmStep(s, phone, Some(calendarId));
            && r.reply == EventCreated(calendarId)
            && r.state.events == s.events[i := s.events[i].(calendarEventId := Some(calendarId))]
            && LedgerValid(r.state)
  {
    MarkConfirmedOneRow(s, LatestPending(s.events, phone).value, calendarId);
  }

  /** A failed publish leaves the store as it was, so confirming again publishes the same row again. */
  lemma ConfirmRetryAfterFailure(s: Ledger, phone: string, published: Option<string>)
    ensures var r := ConfirmStep(s, phone, None);
            r.state == s && ConfirmStep(r.state, phone, published).calls == r.calls
  {
  }

  /**
   * Older pending rows are not lost: once the latest one is confirmed, the
   * next confirm addresses another pending row of the same number.
   */
  lemma ConfirmExposesOlderPending(s: Ledger, phone: string, calendarId: string, j: nat)
    requires LedgerValid(s) && phone in s.users
    requires j < |s.events| && PendingFor(s.events[j], phone) && LatestPending(s.events, phone) != Some(j)
    ensures var t := ConfirmStep(s, phone, Some(calendarId)).state;
            LatestPending(t.events, phone).Some? && LatestPending(t.events, phone) != LatestPending(s.events, phone)
  {
    var i := LatestPending(s.events, phone).value;
    ConfirmMarksLatest(s, phone, calendarId);
    var t := ConfirmStep(s, phone, Some(calendarId)).state;
    assert PendingFor(t.events[j], phone);
    assert !PendingFor(t.events[i], phone);
  }

  /** `cancelEvent`: delete every pending row of the number, then acknowledge. */
  function CancelStep(s: Ledger, phone: string): (r: Outcome)
    ensures r.reply == Cancelled && r.calls == [] && r.state.users == s.users && r.state.nextId == s.nextId
    ensures forall j :: 0 <= j < |r.state.events| ==> !PendingFor(r.state.events[j], phone)
    ensures forall x :: x in r.state.events <==> x in s.events && !PendingFor(x, phone)
    ensures LedgerValid(s) ==> LedgerValid(r.state)
  {
    WithoutPendingRows(s.events, phone);
    var events := WithoutPending(s.events, phone);
    assert LedgerValid(s) ==> LedgerValid(s.(events := events)) by {
      if LedgerValid(s) { WithoutPendingValid(s, phone); }
    }
    assert forall j :: 0 <= j < |events| ==> events[j] in events;
    Outcome(s.(events := events), Cancelled, [])
  }

  /** Cancelling twice is cancelling once. */
  lemma CancelIdempotent(s: Ledger, phone: string)
    ensures CancelStep(CancelStep(s, phone).state, phone) == CancelStep(s, phone)
  {
    WithoutPendingIdempotent(s.events, phone);
  }

  /** After a cancel, a confirm finds nothing and calls no provider. */
  lemma CancelThenConfirm(s: Ledger, phone: string, published: Option<string>)
    ensures var t := CancelStep(s, phone).state;
            ConfirmStep(t, phone, published) == Outcome(t, NoPendingEvent, [])
  {
  }

  /** The action `handleTextMessage` takes for a classified command. */
  function CommandStep(s: Ledger, phone: string, command: Command, published: Option<string>): (r: Outcome)
    ensures command != ConfirmCommand ==> r.calls == []
    ensures command !in {ConfirmCommand, CancelCommand} ==> r.state == s
    ensures r.reply == HelpText <==> command == HelpCommand
    ensures command == EditCommand ==> r.reply == EditInstructions
    ensures command == ChangeCommand ==> r.reply == EditComingSoon
    ensures command == ConfirmCommand ==> r == ConfirmStep(s, phone, published)
    ensures command == CancelCommand ==> r == CancelStep(s, phone)
  {
    match command
    case ConfirmCommand => ConfirmStep(s, phone, published)
    case CancelCommand => CancelStep(s, phone)
    case EditCommand => Outcome(s, EditInstructions, [])
    case ChangeCommand => Outcome(s, EditComingSoon, [])
    case HelpCommand => Outcome(s, HelpText, [])
  }

  /** `handleTextMessage`: classify the body, then act on the command. */
  function TextStep(s: Ledger, phone: string, body: string, published: Option<string>): Outcome {
    CommandStep(s, phone, Classify(body), published)
  }

  /** Only a confirm reaches the providers, and only a confirm or a cancel changes the tables. */
  lemma TextStepEffects(s: Ledger, phone: string, body: string, published: Option<string>)
    ensures TextStep(s, phone, body, published).calls != [] ==> Classify(body) == ConfirmCommand
    ensures TextStep(s, phone, body, published).state != s ==>
              Classify(body) == ConfirmCommand || Classify(body) == CancelCommand
    ensures TextStep(s, phone, body, published).reply == HelpText <==> Classify(body) == HelpCommand
  {
  }

  /** The external results one handled message receives. */
  datatype Effects = Effects(
    now: int,
    extraction: Option<ExtractedEventDetails>,
    refreshed: Option<RefreshResponse>,
    published: Option<string>)

  /** The handler a message reaches; a message that reaches none changes nothing. */
  function MessageStep(s: Ledger, m: Message, e: Effects): (r: Outcome)
    ensures !Dispatchable(m) ==> r == Outcome(s, NoReply, [])
    ensures m.kind.ImageKind? ==> r == ImageStep(s, m.from, e.extraction, e.refreshed, e.now)
    ensures m.kind.TextKind? && m.kind.body.Some? ==> r == TextStep(s, m.from, m.kind.body.value, e.published)
  {
    match m.kind
    case ImageKind => ImageStep(s, m.from, e.extraction, e.refreshed, e.now)
    case TextKind(body) =>
      if body.Some? then TextStep(s, m.from, body.value, e.published) else Outcome(s, NoReply, [])
    case OtherKind => Outcome(s, NoReply, [])
  }

  /** Every handler keeps the table invariant. */
  lemma MessageStepKeepsValid(s: Ledger, m: Message, e: Effects)
    requires LedgerValid(s)
    ensures LedgerValid(MessageStep(s, m, e).state)
  {
    if m.kind.TextKind? && m.kind.body.Some? && Classify(m.kind.body.value) == ConfirmCommand
       && LatestPending(s.events, m.from).Some? && m.from in s.users && e.published.Some? {
      ConfirmMarksLatest(s, m.from, e.published.value);
    }
  }

  /** No handler creates a user or changes a user's identifier, so the users invariant is kept. */
  lemma MessageStepKeepsUserIds(s: Ledger, m: Message, e: Effects)
    requires UserIdsValid(s)
    ensures UserIdsValid(MessageStep(s, m, e).state)
  {
    UserIdsKept(s, MessageStep(s, m, e).state);
  }

  datatype Trace = Trace(state: Ledger, replies: seq<Reply>, calls: seq<Call>)

  /** Applying `step` to `ms` in order; the `n`-th message (counting from `k`) is step number `n`. */
  function Replay(s: Ledger, ms: seq<Message>, step: (Ledger, Message, nat) -> Outcome, k: nat): (t: Trace)
    ensures |t.replies| == |ms|
    decreases |ms|
  {
    if ms == [] then Trace(s, [], [])
    else
      var prev := Replay(s, ms[..|ms| - 1], step, k);
      var o := step(prev.state, ms[|ms| - 1], k + |ms| - 1);
      Trace(o.state, prev.replies + [o.reply], prev.calls + o.calls)
  }

  /** The controller, with the external results of the `n`-th message given by `oracle(n)`. */
  function Handler(oracle: nat -> Effects): (Ledger, Message, nat) -> Outcome {
    (s: Ledger, m: Message, n: nat) => MessageStep(s, m, oracle(n))
  }

  /** The controller's step for the `n`-th handled message uses the results of position `n`. */
  lemma HandlerApply(oracle: nat -> Effects, s: Ledger, m: Message, n: nat)
    ensures Handler(oracle)(s, m, n) == MessageStep(s, m, oracle(n))
  {
  }

  /** Handling a concatenation is handling its parts one after the other. */
  lemma {:induction false} ReplayAppend(s: Ledger, a: seq<Message>, b: seq<Message>,
                                        step: (Ledger, Message, nat) -> Outcome, k: nat)
    ensures var ta := Replay(s, a, step, k);
            var tb := Replay(ta.state, b, step, k + |a|);
            Replay(s, a + b, step, k) == Trace(tb.state, ta.replies + tb.replies, ta.calls + tb.calls)
    decreases |b|
  {
    var ta := Replay(s, a, step, k);
    if b == [] {
      AppendEmpty(a);
      AppendEmpty(ta.replies);
      AppendEmpty(ta.calls);
    } else {
      var init, last := b[..|b| - 1], b[|b| - 1];
      ReplayAppend(s, a, init, step, k);
      var ti := Replay(ta.state, init, step, k + |a|);
      SplitLast(b);
      ReplayAppendLast(s, a, init, last, step, k, ta, ti);
    }
  }

  /** The inductive step of `ReplayAppend`, from `init` to `init + [last]`. */
  lemma ReplayAppendLast(s: Ledger, a: seq<Message>, init: seq<Message>, last: Message,
                         step: (Ledger, Message, nat) -> Outcome, k: nat, ta: Trace, ti: Trace)
    requires Replay(s, a, step, k) == ta && Replay(ta.state, init, step, k + |a|) == ti
    requires Replay(s, a + init, step, k) == Trace(ti.state, ta.replies + ti.replies, ta.calls + ti.calls)
    ensures var tb := Replay(ta.state, init + [last], step, k + |a|);
            Replay(s, a + (init + [last]), step, k) == Trace(tb.state, ta.replies + tb.replies, ta.calls + tb.calls)
  {
    var o := step(ti.state, last, k + |a| + |init|);
    ReplayExtend(ta.state, init, last, step, k + |a|, ti, o);
    ReplayExtend(s, a + init, last, step, k, Trace(ti.state, ta.replies + ti.replies, ta.calls + ti.calls), o);
    AppendAssoc(a, init, [last]);
    AppendAssoc(ta.replies, ti.replies, [o.reply]);
    AppendAssoc(ta.calls, ti.calls, o.calls);
  }

  /** Handling one more message extends the trace by that message's outcome. */
  lemma ReplayExtend(s: Ledger, ms: seq<Message>, m: Message, step: (Ledger, Message, nat) -> Outcome, k: nat,
                     t: Trace, o: Outcome)
    requires Replay(s, ms, step, k) == t && step(t.state, m, k + |ms|) == o
    ensures Replay(s, ms + [m], step, k) == Trace(o.state, t.replies + [o.reply], t.calls + o.calls)
  {
    assert (ms + [m])[..|ms|] == ms;
  }

  /** The form in which the handler loops use `ReplayAppend`: traces of consecutive parts compose. */
  lemma ReplayCompose(s: Ledger, a: seq<Message>, b: seq<Message>, step: (Ledger, Message, nat) -> Outcome, k: nat,
                      ta: Trace, tb: Trace)
    requires Replay(s, a, step, k) == ta && Replay(ta.state, b, step, k + |a|) == tb
    ensures Replay(s, a + b, step, k) == Trace(tb.state, ta.replies + tb.replies, ta.calls + tb.calls)
  {
    ReplayAppend(s, a, b, step, k);
  }

  /** Every state a delivery passes through keeps the table invariant. */
  lemma {:induction false} ReplayKeepsValid(s: Ledger, ms: seq<Message>, oracle: nat -> Effects, k: nat)
    requires LedgerValid(s)
    ensures LedgerValid(Replay(s, ms, Handler(oracle), k).state)
    decreases |ms|
  {
    if ms != [] {
      ReplayKeepsValid(s, ms[..|ms| - 1], oracle, k);
      var prev := Replay(s, ms[..|ms| - 1], Handler(oracle), k);
      var o := MessageStep(prev.state, ms[|ms| - 1], oracle(k + |ms| - 1));
      assert Handler(oracle)(prev.state, ms[|ms| - 1], k + |ms| - 1) == o;
      MessageStepKeepsValid(prev.state, ms[|ms| - 1], oracle(k + |ms| - 1));
    }
  }

  /** A delivery keeps the users invariant through every handled message. */
  lemma {:induction false} ReplayKeepsUserIds(s: Ledger, ms: seq<Message>, oracle: nat -> Effects, k: nat)
    requires UserIdsValid(s)
    ensures UserIdsValid(Replay(s, ms, Handler(oracle), k).state)
    decreases |ms|
  {
    if ms != [] {
      ReplayKeepsUserIds(s, ms[..|ms| - 1], oracle, k);
      var prev := Replay(s, ms[..|ms| - 1], Handler(oracle), k);
      assert Handler(oracle)(prev.state, ms[|ms| - 1], k + |ms| - 1) == MessageStep(prev.state, ms[|ms| - 1], oracle(k + |ms| - 1));
      MessageStepKeepsUserIds(prev.state, ms[|ms| - 1], oracle(k + |ms| - 1));
    }
  }

  /**
   * With the sender authorised and the clock not behind any stored row, the
   * row an image stores is the one the next confirm publishes.
   */
  lemma ImageThenConfirmTargetsNewRow(s: Ledger, phone: string, d: ExtractedEventDetails,
                                      refreshed: Option<RefreshResponse>, now: int)
    requires ImageStep(s, phone, Some(d), refreshed, now).reply == EventSummary
    requires forall j :: 0 <= j < |s.events| ==> s.events[j].createdAt <= now
    ensures LatestPending(ImageStep(s, phone, Some(d), refreshed, now).state.events, phone) == Some(|s.events|)
  {
    var t := ImageStep(s, phone, Some(d), refreshed, now).state;
    assert t.events == s.events + [t.events[|s.events|]];
    LatestPendingAppend(s.events, t.events[|s.events|], phone);
  }

  // ---------------------------------------------------- route handlers

  method HandleImageMessage(db: Database, phone: string, extraction: Option<ExtractedEventDetails>,
                            refreshed: Option<RefreshResponse>, now: int)
    returns (reply: Reply, calls: seq<Call>)
    requires db.Valid()
    modifies db
    ensures db.Valid()
    ensures Outcome(db.State(), reply, calls) == ImageStep(old(db.State()), phone, extraction, refreshed, now)
  {
    if extraction.None? {
      return ImageError, [];
    }
    if phone !in db.users {
      return AuthLink, [];
    }
    var user := db.users[phone];
    calls := [];
    if user.tokens.expiresAt < now {
      calls := [RefreshCall(user.tokens.refreshToken)];
      if refreshed.None? {
        return ImageError, calls;
      }
      db.UpdateTokens(phone, RefreshedTokens(user.tokens.refreshToken, refreshed.value));
    }
    var d := extraction.value;
    var _ := db.InsertEvent(user.id, phone, d.title, Some(d.description), d.startDate, d.endDate, Some(d.location), now);
    reply := EventSummary;
  }

  method ConfirmEvent(db: Database, phone: string, published: Option<string>)
    returns (reply: Reply, calls: seq<Call>)
    requires db.Valid()
    modifies db
    ensures db.Valid()
    ensures Outcome(db.State(), reply, calls) == ConfirmStep(old(db.State()), phone, published)
  {
    var latest := LatestPending(db.events, phone);
    if latest.None? {
      return NoPendingEvent, [];
    }
    if phone !in db.users {
      return AuthenticateFirst, [];
    }
    var row := db.events[latest.value];
    var tokens := db.users[phone].tokens;
    calls := [PublishCall(tokens, CalendarInsertRequest(EventInputOfRow(row)))];
    if published.None? {
      return CreateFailed, calls;
    }
    ConfirmMarksLatest(db.State(), phone, published.value);
    db.SetCalendarEventId(row.id, published.value);
    reply := EventCreated(published.value);
  }

  method CancelEvent(db: Database, phone: string) returns (reply: Reply)
    requires db.Valid()
    modifies db
    ensures db.Valid()
    ensures Outcome(db.State(), reply, []) == CancelStep(old(db.State()), phone)
  {
    db.DeletePending(phone);
    reply := Cancelled;
  }

  method HandleTextMessage(db: Database, phone: string, body: string, published: Option<string>)
    returns (reply: Reply, calls: seq<Call>)
    requires db.Valid()
    modifies db
    ensures db.Valid()
    ensures Outcome(db.State(), reply, calls) == TextStep(old(db.State()), phone, body, published)
  {
    match Classify(body)
    case ConfirmCommand =>
      reply, calls := ConfirmEvent(db, phone, published);
    case CancelCommand =>
      reply := CancelEvent(db, phone);
      calls := [];
    case EditCommand =>
      reply, calls := EditInstructions, [];
    case ChangeCommand =>
      reply, calls := EditComingSoon, [];
    case HelpCommand =>
      reply, calls := HelpText, [];
  }

  /**
   * The branch of the `handleMessages` loop that hands a message to its
   * handler: the message follows the messages `before`, handled from
   * position `k` on, so it is the `n`-th handled one and extends their trace.
   */
  method HandleMessage(db: Database, m: Message, oracle: nat -> Effects, k: nat, n: nat,
                       ghost s0: Ledger, ghost before: seq<Message>, ghost replies: seq<Reply>, ghost calls: seq<Call>)
    returns (reply: Reply, cs: seq<Call>)
    requires db.Valid() && Dispatchable(m) && n == k + |before|
    requires Replay(s0, before, Handler(oracle), k) == Trace(db.State(), replies, calls)
    modifies db
    ensures db.Valid()
    ensures Outcome(db.State(), reply, cs) == MessageStep(old(db.State()), m, oracle(n))
    ensures Replay(s0, before + [m], Handler(oracle), k) == Trace(db.State(), replies + [reply], calls + cs)
  {
    ghost var t := Trace(db.State(), replies, calls);
    var e := oracle(n);
    match m.kind {
      case ImageKind =>
        reply, cs := HandleImageMessage(db, m.from, e.extraction, e.refreshed, e.now);
      case TextKind(body) =>
        reply, cs := HandleTextMessage(db, m.from, body.value, e.published);
    }
    HandlerApply(oracle, t.state, m, n);
    ReplayExtend(s0, before, m, Handler(oracle), k, t, Outcome(db.State(), reply, cs));
  }

  /**
   * `handleMessages(value)`: the messages handed to a handler, in order,
   * whose `n`-th (counting from `k`) receives `oracle(n)`; `fault` when a
   * missing field threw.
   */
  method HandleMessages(db: Database, value: Option<ChangeValue>, oracle: nat -> Effects, k: nat)
    returns (handled: seq<Message>, replies: seq<Reply>, calls: seq<Call>, fault: bool)
    requires db.Valid()
    modifies db
    ensures db.Valid()
    ensures Walk(handled, fault) == ValueWalk(value)
    ensures Replay(old(db.State()), handled, Handler(oracle), k) == Trace(db.State(), replies, calls)
  {
    ghost var s0 := db.State();
    handled, replies, calls, fault := [], [], [], false;
    if value.None? {
      fault := true;
      return;
    }
    var messages := value.value.messages.GetOr([]);
    var i := 0;
    while i < |messages|
      invariant 0 <= i <= |messages|
      invariant db.Valid()
      invariant Walk(handled, false) == WalkAll(messages[..i], MessageWalk)
      invariant Replay(s0, handled, Handler(oracle), k) == Trace(db.State(), replies, calls)
    {
      var m := messages[i];
      TakeTake(messages, i);
      if m.kind.TextKind? && m.kind.body.None? {
        FaultStops(messages, i + 1, MessageWalk);
        fault := true;
        return;
      }
      if Dispatchable(m) {
        var reply, cs := HandleMessage(db, m, oracle, k, k + |handled|, s0, handled, replies, calls);
        handled, replies, calls := handled + [m], replies + [reply], calls + cs;
      }
      i := i + 1;
    }
    TakeAll(messages);
  }

  /**
   * The inner loop of the POST handler: the changes of one entry, in
   * order, handing each `messages` change's value to `handleMessages`.
   */
  method HandleChanges(db: Database, changes: seq<Change>, oracle: nat -> Effects, k: nat)
    returns (handled: seq<Message>, replies: seq<Reply>, calls: seq<Call>, fault: bool)
    requires db.Valid()
    modifies db
    ensures db.Valid()
    ensures Walk(handled, fault) == WalkAll(changes, ChangeWalk)
    ensures Replay(old(db.State()), handled, Handler(oracle), k) == Trace(db.State(), replies, calls)
  {
    ghost var s0 := db.State();
    handled, replies, calls, fault := [], [], [], false;
    var j := 0;
    while j < |changes|
      invariant 0 <= j <= |changes|
      invariant db.Valid()
      invariant Walk(handled, false) == WalkAll(changes[..j], ChangeWalk)
      invariant Replay(s0, handled, Handler(oracle), k) == Trace(db.State(), replies, calls)
    {
      var change := changes[j];
      TakeTake(changes, j);
      if change.field == MessagesField {
        ghost var t := Trace(db.State(), replies, calls);
        var h, r, c, f := HandleMessages(db, change.value, oracle, k + |handled|);
        ReplayCompose(s0, handled, h, Handler(oracle), k, t, Trace(db.State(), r, c));
        handled, replies, calls := handled + h, replies + r, calls + c;
        if f {
          FaultStops(changes, j + 1, ChangeWalk);
          fault := true;
          return;
        }
      }
      j := j + 1;
    }
    TakeAll(changes);
  }

  /**
   * The outer loop of the POST handler: the entries of a delivery, in
   * order; an entry without `changes` throws.
   */
  method HandleEntries(db: Database, entries: seq<Entry>, oracle: nat -> Effects)
    returns (handled: seq<Message>, replies: seq<Reply>, calls: seq<Call>, fault: bool)
    requires db.Valid()
    modifies db
    ensures db.Valid()
    ensures Walk(handled, fault) == WalkAll(entries, EntryWalk)
    ensures Replay(old(db.State()), handled, Handler(oracle), 0) == Trace(db.State(), replies, calls)
  {
    ghost var s0 := db.State();
    handled, replies, calls, fault := [], [], [], false;
    var i := 0;
    while i < |entries|
      invariant 0 <= i <= |entries|
      invariant db.Valid()
      invariant Walk(handled, false) == WalkAll(entries[..i], EntryWalk)
      invariant Replay(s0, handled, Handler(oracle), 0) == Trace(db.State(), replies, calls)
    {
      var entry := entries[i];
      TakeTake(entries, i);
      if entry.changes.None? {
        FaultStops(entries, i + 1, EntryWalk);
        fault := true;
        return;
      }
      ghost var t := Trace(db.State(), replies, calls);
      var h, r, c, f := HandleChanges(db, entry.changes.value, oracle, |handled|);
      ReplayCompose(s0, handled, h, Handler(oracle), 0, t, Trace(db.State(), r, c));
      handled, replies, calls := handled + h, replies + r, calls + c;
      if f {
        FaultStops(entries, i + 1, EntryWalk);
        fault := true;
        return;
      }
      i := i + 1;
    }
    TakeAll(entries);
  }

  /**
   * The POST handler: the status it answers, and the messages handled with
   * their replies and provider calls.
   */
  method Post(db: Database, body: Option<Body>, oracle: nat -> Effects)
    returns (status: int, handled: seq<Message>, replies: seq<Reply>, calls: seq<Call>)
    requires db.Valid()
    modifies db
    ensures db.Valid()
    ensures status == 200 || status == 500
    ensures Walk(handled, status == 500) == DeliveryWalk(body)
    ensures forall m <- handled :: Dispatchable(m)
    ensures Replay(old(db.State()), handled, Handler(oracle), 0) == Trace(db.State(), replies, calls)
    ensures body.Some? && body.value.objectType != BusinessAccount ==>
              status == 200 && handled == [] && calls == [] && db.State() == old(db.State())
  {
    DeliveryDispatchable(body);
    handled, replies, calls := [], [], [];
    if body.None? {
      return 500, handled, replies, calls;
    }
    var b := body.value;
    if b.objectType != BusinessAccount {
      return 200, handled, replies, calls;
    }
    if b.entry.None? {
      return 500, handled, replies, calls;
    }
    var fault;
    handled, replies, calls, fault := HandleEntries(db, b.entry.value, oracle);
    status := if fault then 500 else 200;
  }
}
