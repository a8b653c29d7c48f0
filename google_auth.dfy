/**
 * The pure parts of the Google client wrapper: the credential triple stored
 * per user, the triple built from a token-refresh response, and the request
 * that inserts a calendar event. The HTTP calls themselves are performed by
 * the Google client library and appear here only as their inputs and outputs.
 */
module GoogleAuth {
  import opened Wrappers

  /** The stored credential triple (`GoogleTokens`); `expiresAt` is in epoch milliseconds. */
  datatype Tokens = Tokens(accessToken: string, refreshToken: string, expiresAt: int)

  /**
   * The credentials the identity provider returns from a refresh. `refreshAccessToken`
   * asserts (with `!`) that the access token and expiry are present; the
   * refresh token is optional because providers need not rotate it.
   */
  datatype RefreshResponse = RefreshResponse(accessToken: string, refreshToken: Option<string>, expiryDate: int)

  /** The triple `refreshAccessToken` returns for the caller's `refreshToken`. */
  function RefreshedTokens(refreshToken: string, credentials: RefreshResponse): (t: Tokens)
    ensures t.accessToken == credentials.accessToken
    ensures t.expiresAt == credentials.expiryDate
    ensures Truthy(credentials.refreshToken) ==> t.refreshToken == credentials.refreshToken.value
    ensures !Truthy(credentials.refreshToken) ==> t.refreshToken == refreshToken
    // a refresh never loses the last known refresh token
    ensures refreshToken != "" ==> t.refreshToken != ""
  {
    Tokens(credentials.accessToken,
           if Truthy(credentials.refreshToken) then credentials.refreshToken.value else refreshToken,
           credentials.expiryDate)
  }

  /** The event fields `createCalendarEvent` receives. */
  datatype EventInput = EventInput(
    title: string,
    description: Option<string>,
    startDate: string,
    endDate: string,
    location: Option<string>,
    invitees: Option<seq<string>>)

  datatype EventDateTime = EventDateTime(dateTime: string, timeZone: string)

  datatype Attendee = Attendee(email: string)

  /** The `requestBody` of the Calendar API insert call. */
  datatype EventBody = EventBody(
    summary: string,
    description: Option<string>,
    start: EventDateTime,
    end: EventDateTime,
    location: Option<string>,
    attendees: Option<seq<Attendee>>)

  datatype InsertRequest = InsertRequest(calendarId: string, requestBody: EventBody)

  const Utc := "UTC"
  const PrimaryCalendar := "primary"

  /** `invitees.map(email => ({ email }))`. */
  function Attendees(invitees: seq<string>): (r: seq<Attendee>)
    ensures |r| == |invitees|
    ensures forall i :: 0 <= i < |r| ==> r[i].email == invitees[i]
  {
    if invitees == [] then [] else [Attendee(invitees[0])] + Attendees(invitees[1..])
  }

  function Emails(attendees: seq<Attendee>): seq<string> {
    if attendees == [] then [] else [attendees[0].email] + Emails(attendees[1..])
  }

  /** The attendee list can be read back as the invitee list it came from. */
  lemma {:induction false} EmailsOfAttendees(invitees: seq<string>)
    ensures Emails(Attendees(invitees)) == invitees
  {
    if invitees != [] {
      EmailsOfAttendees(invitees[1..]);
    }
  }

  /** The event body `createCalendarEvent` builds from its input. */
  function EventBodyOf(d: EventInput): (b: EventBody)
    ensures b.summary == d.title && b.description == d.description && b.location == d.location
    ensures b.start == EventDateTime(d.startDate, Utc) && b.end == EventDateTime(d.endDate, Utc)
    ensures b.attendees.None? <==> d.invitees.None?
    ensures d.invitees.Some? ==> |b.attendees.value| == |d.invitees.value|
  {
    EventBody(d.title, d.description, EventDateTime(d.startDate, Utc), EventDateTime(d.endDate, Utc),
              d.location, match d.invitees case None => None case Some(xs) => Some(Attendees(xs)))
  }

  /** Reads the event input back from a request body. */
  function EventInputOf(b: EventBody): EventInput {
    EventInput(b.summary, b.description, b.start.dateTime, b.end.dateTime, b.location,
               match b.attendees case None => None case Some(xs) => Some(Emails(xs)))
  }

  /** The body loses nothing of the input: reading it back gives the input. */
  lemma EventBodyRoundTrip(d: EventInput)
    ensures EventInputOf(EventBodyOf(d)) == d
  {
    if d.invitees.Some? {
      EmailsOfAttendees(d.invitees.value);
    }
  }

  /** The insert request of `createCalendarEvent`: always the user's primary calendar. */
  function CalendarInsertRequest(d: EventInput): (r: InsertRequest)
    ensures r.calendarId == PrimaryCalendar
    ensures EventInputOf(r.requestBody) == d
  {
    EventBodyRoundTrip(d);
    InsertRequest(PrimaryCalendar, EventBodyOf(d))
  }
}
