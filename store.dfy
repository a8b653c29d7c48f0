/**
 * The two tables the workflow reads and writes: `users` (one credential
 * record per chat number) and `events` (one row per extraction, pending
 * while `calendarEventId` is null). The queries the controller issues are
 * functions on a `Ledger` value; the `Database` class holds the tables and
 * applies them in place.
 */
module Store {
  import opened Wrappers
  import opened GoogleAuth

  datatype User = User(id: nat, tokens: Tokens)

  datatype EventRow = EventRow(
    id: nat,
    userId: nat,
    phone: string,
    title: string,
    description: Option<string>,
    startDate: string,
    endDate: string,
    location: Option<string>,
    invitees: Option<seq<string>>,
    calendarEventId: Option<string>,
    createdAt: int)

  /** Both tables, keyed as the controller queries them; `nextId` is the next generated identifier. */
  datatype Ledger = Ledger(users: map<string, User>, events: seq<EventRow>, nextId: nat)

  /** A row the confirm and cancel queries select for `phone`. */
  predicate PendingFor(r: EventRow, phone: string) {
    r.phone == phone && r.calendarEventId.None?
  }

  ghost predicate UniqueIds(rows: seq<EventRow>) {
    forall i, j :: 0 <= i < |rows| && 0 <= j < |rows| && rows[i].id == rows[j].id ==> i == j
  }

  /** No two numbers share a user identifier. */
  ghost predicate UniqueUserIds(users: map<string, User>) {
    forall p, q :: p in users && q in users && users[p].id == users[q].id ==> p == q
  }

  /** The table invariant: row identifiers are distinct and below the next one generated. */
  ghost predicate LedgerValid(l: Ledger) {
    && UniqueIds(l.events)
    && forall i :: 0 <= i < |l.events| ==> l.events[i].id < l.nextId
  }

  /** The users table's invariant: user identifiers are distinct and below the next one generated. */
  ghost predicate UserIdsValid(l: Ledger) {
    && UniqueUserIds(l.users)
    && forall p :: p in l.users ==> l.users[p].id < l.nextId
  }

  /** A step that keeps every user's identifier and never lowers the counter keeps the users invariant. */
  lemma UserIdsKept(l: Ledger, r: Ledger)
    requires UserIdsValid(l) && l.nextId <= r.nextId && r.users.Keys == l.users.Keys
    requires forall p :: p in l.users ==> r.users[p].id == l.users[p].id
    ensures UserIdsValid(r)
  {
  }

  /**
   * `select * from events where whatsapp_number = phone and calendar_event_id is null
   * order by created_at desc limit 1`: the index of the latest pending row, the
   * last-stored one among rows created at the same instant.
   */
  function LatestPending(rows: seq<EventRow>, phone: string): (r: Option<nat>)
    ensures r.None? <==> forall j :: 0 <= j < |rows| ==> !PendingFor(rows[j], phone)
    ensures r.Some? ==> r.value < |rows| && PendingFor(rows[r.value], phone)
    ensures r.Some? ==> forall j :: 0 <= j < |rows| && PendingFor(rows[j], phone) ==>
                          rows[j].createdAt <= rows[r.value].createdAt
    ensures r.Some? ==> forall j :: r.value < j < |rows| && PendingFor(rows[j], phone) ==>
                          rows[j].createdAt < rows[r.value].createdAt
    decreases |rows|
  {
    if rows == [] then None
    else
      var last := rows[|rows| - 1];
      var prev := LatestPending(rows[..|rows| - 1], phone);
      if PendingFor(last, phone) && (prev.None? || rows[prev.value].createdAt <= last.createdAt)
      then Some(|rows| - 1)
      else prev
  }

  /** At most one row satisfies the characterisation of `LatestPending`. */
  lemma LatestPendingUnique(rows: seq<EventRow>, phone: string, i: nat, k: nat)
    requires i < |rows| && PendingFor(rows[i], phone) && k < |rows| && PendingFor(rows[k], phone)
    requires forall j :: 0 <= j < |rows| && PendingFor(rows[j], phone) ==> rows[j].createdAt <= rows[i].createdAt
    requires forall j :: i < j < |rows| && PendingFor(rows[j], phone) ==> rows[j].createdAt < rows[i].createdAt
    requires forall j :: 0 <= j < |rows| && PendingFor(rows[j], phone) ==> rows[j].createdAt <= rows[k].createdAt
    requires forall j :: k < j < |rows| && PendingFor(rows[j], phone) ==> rows[j].createdAt < rows[k].createdAt
    ensures i == k
  {
  }

  /** A pending row appended no earlier than every stored row becomes the latest pending one. */
  lemma LatestPendingAppend(rows: seq<EventRow>, row: EventRow, phone: string)
    requires PendingFor(row, phone)
    requires forall j :: 0 <= j < |rows| ==> rows[j].createdAt <= row.createdAt
    ensures LatestPending(rows + [row], phone) == Some(|rows|)
  {
    assert (rows + [row])[..|rows|] == rows;
  }

  /** `delete from events where whatsapp_number = phone and calendar_event_id is null`. */
  function WithoutPending(rows: seq<EventRow>, phone: string): (r: seq<EventRow>)
    ensures |r| <= |rows|
    ensures forall j :: 0 <= j < |r| ==> !PendingFor(r[j], phone)
    decreases |rows|
  {
    if rows == [] then []
    else
      var last := rows[|rows| - 1];
      WithoutPending(rows[..|rows| - 1], phone) + if PendingFor(last, phone) then [] else [last]
  }

  /** The delete removes exactly the pending rows of `phone`: confirmed rows and other numbers' rows stay. */
  lemma {:induction false} WithoutPendingRows(rows: seq<EventRow>, phone: string)
    ensures forall x :: x in WithoutPending(rows, phone) <==> x in rows && !PendingFor(x, phone)
    decreases |rows|
  {
    if rows != [] {
      var init := rows[..|rows| - 1];
      WithoutPendingRows(init, phone);
      assert rows == init + [rows[|rows| - 1]];
    }
  }

  /** With no pending row for the number the delete removes nothing. */
  lemma {:induction false} WithoutPendingKeepsOrder(rows: seq<EventRow>, phone: string)
    requires forall j :: 0 <= j < |rows| ==> !PendingFor(rows[j], phone)
    ensures WithoutPending(rows, phone) == rows
    decreases |rows|
  {
    if rows != [] {
      WithoutPendingKeepsOrder(rows[..|rows| - 1], phone);
      assert rows == rows[..|rows| - 1] + [rows[|rows| - 1]];
    }
  }

  /** Deleting the pending rows twice deletes nothing more. */
  lemma WithoutPendingIdempotent(rows: seq<EventRow>, phone: string)
    ensures WithoutPending(WithoutPending(rows, phone), phone) == WithoutPending(rows, phone)
  {
    var r := WithoutPending(rows, phone);
    WithoutPendingRows(rows, phone);
    forall j | 0 <= j < |r| ensures !PendingFor(r[j], phone) {
      assert r[j] in r;
    }
    WithoutPendingKeepsOrder(r, phone);
  }

  /** The delete keeps the table invariant. */
  lemma {:induction false} WithoutPendingValid(l: Ledger, phone: string)
    requires LedgerValid(l)
    ensures LedgerValid(l.(events := WithoutPending(l.events, phone)))
    decreases |l.events|
  {
    var rows := l.events;
    if rows != [] {
      var init := rows[..|rows| - 1];
      var last := rows[|rows| - 1];
      WithoutPendingValid(l.(events := init), phone);
      var w := WithoutPending(init, phone);
      WithoutPendingRows(init, phone);
      forall j | 0 <= j < |w| ensures w[j].id != last.id {
        assert w[j] in w;
        var k :| 0 <= k < |init| && init[k] == w[j];
        assert rows[k] == w[j];
      }
      if PendingFor(last, phone) {
        assert WithoutPending(rows, phone) == w;
      } else {
        UniqueIdsSnoc(w, last);
        assert WithoutPending(rows, phone) == w + [last];
      }
    }
  }

  /** Appending a row whose identifier is new keeps the identifiers distinct. */
  lemma UniqueIdsSnoc(rows: seq<EventRow>, last: EventRow)
    requires UniqueIds(rows) && forall j :: 0 <= j < |rows| ==> rows[j].id != last.id
    ensures UniqueIds(rows + [last])
  {
    assert forall j :: 0 <= j < |rows| ==> (rows + [last])[j] == rows[j];
  }

  /** `update events set calendar_event_id = calendarId where id = id`. */
  function MarkConfirmed(rows: seq<EventRow>, id: nat, calendarId: string): (r: seq<EventRow>)
    ensures |r| == |rows|
    ensures forall k :: 0 <= k < |rows| ==> r[k].id == rows[k].id
    ensures forall k :: 0 <= k < |rows| && rows[k].id != id ==> r[k] == rows[k]
    ensures forall k :: 0 <= k < |rows| && rows[k].id == id ==> r[k].calendarEventId == Some(calendarId)
  {
    seq(|rows|, k requires 0 <= k < |rows| =>
      if rows[k].id == id then rows[k].(calendarEventId := Some(calendarId)) else rows[k])
  }

  /** With distinct identifiers the update by identifier changes exactly one row, and only its calendar id. */
  lemma MarkConfirmedOneRow(l: Ledger, i: nat, calendarId: string)
    requires LedgerValid(l) && i < |l.events|
    ensures MarkConfirmed(l.events, l.events[i].id, calendarId)
            == l.events[i := l.events[i].(calendarEventId := Some(calendarId))]
    ensures LedgerValid(l.(events := MarkConfirmed(l.events, l.events[i].id, calendarId)))
  {
  }

  /**
   * `insert into events (...)` of a pending row. The store generates the
   * identifier, modelled by the `nextId` counter, and the creation time,
   * modelled as the handler's `now`.
   */
  function Insert(l: Ledger, userId: nat, phone: string, title: string, description: Option<string>,
                  startDate: string, endDate: string, location: Option<string>, now: int): (r: Ledger)
    ensures r.users == l.users
    ensures |r.events| == |l.events| + 1 && r.events[..|l.events|] == l.events
    ensures PendingFor(r.events[|l.events|], phone) && r.events[|l.events|].createdAt == now
    ensures LedgerValid(l) ==> LedgerValid(r)
  {
    var row := EventRow(l.nextId, userId, phone, title, description, startDate, endDate, location, None, None, now);
    assert (l.events + [row])[..|l.events|] == l.events;
    l.(events := l.events + [row], nextId := l.nextId + 1)
  }

  /** `update users set google_oauth_token = tokens where whatsapp_number = phone`. */
  function SetTokens(l: Ledger, phone: string, tokens: Tokens): (r: Ledger)
    ensures r.events == l.events && r.users.Keys == l.users.Keys
    ensures phone in l.users ==> r.users[phone] == l.users[phone].(tokens := tokens)
    ensures forall p :: p in l.users && p != phone ==> r.users[p] == l.users[p]
  {
    if phone in l.users then l.(users := l.users[phone := l.users[phone].(tokens := tokens)]) else l
  }

  /** `upsert into users (whatsapp_number, google_oauth_token)`, keyed by the chat number. */
  function Upsert(l: Ledger, phone: string, tokens: Tokens): (r: Ledger)
    ensures r.events == l.events && r.users.Keys == l.users.Keys + {phone}
    ensures phone in r.users && r.users[phone].tokens == tokens
    ensures phone in l.users ==> r.users[phone].id == l.users[phone].id
    ensures forall p :: p in l.users && p != phone ==> r.users[p] == l.users[p]
    ensures UserIdsValid(l) && phone !in l.users ==> forall p :: p in l.users ==> r.users[phone].id != l.users[p].id
    ensures LedgerValid(l) ==> LedgerValid(r)
    ensures UserIdsValid(l) ==> UserIdsValid(r)
  {
    if phone in l.users then l.(users := l.users[phone := User(l.users[phone].id, tokens)])
    else l.(users := l.users[phone := User(l.nextId, tokens)], nextId := l.nextId + 1)
  }

  /** The two tables, updated in place by the route handlers. */
  class Database {
    var users: map<string, User>
    var events: seq<EventRow>
    var nextId: nat

    function State(): Ledger
      reads this
    {
      Ledger(users, events, nextId)
    }

    ghost predicate Valid()
      reads this
    {
      LedgerValid(State())
    }

    constructor ()
      ensures Valid() && State() == Ledger(map[], [], 0)
    {
      users, events, nextId := map[], [], 0;
    }

    method UpdateTokens(phone: string, tokens: Tokens)
      requires Valid()
      modifies this
      ensures Valid() && State() == SetTokens(old(State()), phone, tokens)
    {
      if phone in users {
        users := users[phone := users[phone].(tokens := tokens)];
      }
    }

    method InsertEvent(userId: nat, phone: string, title: string, description: Option<string>,
                       startDate: string, endDate: string, location: Option<string>, now: int)
      returns (id: nat)
      requires Valid()
      modifies this
      ensures Valid() && State() == Insert(old(State()), userId, phone, title, description, startDate, endDate, location, now)
      ensures id == old(nextId)
    {
      id := nextId;
      events := events + [EventRow(id, userId, phone, title, description, startDate, endDate, location, None, None, now)];
      nextId := nextId + 1;
    }

    method SetCalendarEventId(id: nat, calendarId: string)
      requires Valid()
      modifies this
      ensures Valid() && State() == old(State()).(events := MarkConfirmed(old(events), id, calendarId))
    {
      events := MarkConfirmed(events, id, calendarId);
    }

    method DeletePending(phone: string)
      requires Valid()
      modifies this
      ensures Valid() && State() == old(State()).(events := WithoutPending(old(events), phone))
    {
      WithoutPendingValid(State(), phone);
      events := WithoutPending(events, phone);
    }

    method UpsertUser(phone: string, tokens: Tokens)
      requires Valid()
      modifies this
      ensures Valid() && State() == Upsert(old(State()), phone, tokens)
    {
      if phone in users {
        users := users[phone := User(users[phone].id, tokens)];
      } else {
        users := users[phone := User(nextId, tokens)];
        nextId := nextId + 1;
      }
    }
  }
}
