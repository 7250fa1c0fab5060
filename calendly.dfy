/**
 * Slot retrieval against the Calendly API (`get_user_slots`).
 *
 * The two HTTP requests are parameters: a function from the request the bot
 * sends to the response it gets back. A response is its status code, its raw
 * body text and the records of its JSON `collection` (empty when the key is
 * missing). The clock is the parameter `now`, in microseconds since the epoch.
 */
module Calendly {
  import opened Wrappers
  import opened Text

  /** An HTTP response: status code, body text, and the `collection` records. */
  datatype Response<T> = Response(status: int, body: string, collection: seq<T>)

  /** An event type record; only its `uri` is read. */
  datatype EventType = EventType(uri: string)

  /** An availability record; only its `start_time` is read. */
  datatype AvailableTime = AvailableTime(startTime: string)

  /** The body of the availability POST, with the `Authorization` header it carries. */
  datatype AvailabilityQuery = AvailabilityQuery(
    authorization: string,
    eventType: string,
    startTime: int,
    endTime: int,
    timezone: string)

  /** The three exceptions `get_user_slots` raises. */
  datatype SlotError =
    | EventTypesFailed(body: string)
    | NoEventTypes
    | AvailabilityFailed(body: string)

  const OkStatus := 200
  const MaxSlots: nat := 5
  const WindowDays := 7
  const MicrosPerDay := 86_400_000_000
  const Timezone := "Asia/Tashkent"

  /** `str(e)` of each exception: the text shown to the user. */
  function ErrorText(e: SlotError): (text: string)
    ensures !e.NoEventTypes? ==> |e.body| <= |text| && text[|text| - |e.body|..] == e.body
  {
    match e
    case EventTypesFailed(body) => "Failed to fetch event types: " + body
    case NoEventTypes => "No event types found for this Calendly account."
    case AvailabilityFailed(body) => "Failed to fetch availability: " + body
  }

  /** The `Authorization` header value sent with both requests. */
  function BearerHeader(accessToken: string): (header: string)
    ensures "Bearer " <= header && header[|"Bearer "|..] == accessToken
  {
    "Bearer " + accessToken
  }

  /** Step 1: a failed request or an empty collection is an error; otherwise the first event type's `uri`. */
  function ChooseEventType(res: Response<EventType>): (r: Result<string, SlotError>)
    ensures res.status != OkStatus ==> r == Failure(EventTypesFailed(res.body))
    ensures res.status == OkStatus && res.collection == [] ==> r == Failure(NoEventTypes)
    ensures r.Success? <==> res.status == OkStatus && |res.collection| > 0
    ensures r.Success? ==> r.value == res.collection[0].uri
  {
    if res.status != OkStatus then Failure(EventTypesFailed(res.body))
    else if res.collection == [] then Failure(NoEventTypes)
    else Success(res.collection[0].uri)
  }

  /** Step 2: the availability query for the seven days that start at `now`, in the fixed zone. */
  function AvailabilityWindow(authorization: string, eventUri: string, now: int): (q: AvailabilityQuery)
    ensures q.startTime == now
    ensures q.endTime - q.startTime == 7 * 24 * 60 * 60 * 1_000_000
    ensures q.timezone == "Asia/Tashkent"
    ensures q.eventType == eventUri && q.authorization == authorization
  {
    AvailabilityQuery(authorization, eventUri, now, now + WindowDays * MicrosPerDay, Timezone)
  }

  /** A display string: `start_time.replace("T", " ").replace("Z", "")`. */
  function FormatSlot(startTime: string): (r: string)
    ensures 'T' !in r && 'Z' !in r
    ensures |r| == |startTime| - Count(startTime, 'Z')
  {
    var spaced := ReplaceChar(startTime, 'T', ' ');
    CountAfterReplace(startTime, 'T', ' ', 'Z');
    RemoveChar(spaced, 'Z')
  }

  /** An independent one-pass description of the display format: `T` becomes a space, `Z` goes, the rest stays. */
  function FormatChars(s: string): string
  {
    if s == [] then []
    else (if s[0] == 'Z' then [] else if s[0] == 'T' then [' '] else [s[0]]) + FormatChars(s[1..])
  }

  /** The two chained `replace` calls do exactly what the one-pass description says. */
  lemma {:induction false} FormatSlotIsFormatChars(s: string)
    ensures FormatSlot(s) == FormatChars(s)
  {
    if s != [] {
      FormatSlotIsFormatChars(s[1..]);
      var spaced := ReplaceChar(s, 'T', ' ');
      assert spaced == [spaced[0]] + ReplaceChar(s[1..], 'T', ' ');
      RemoveCharAppend([spaced[0]], ReplaceChar(s[1..], 'T', ' '), 'Z');
      assert RemoveChar([spaced[0]], 'Z') == (if spaced[0] == 'Z' then [] else [spaced[0]]);
    }
  }

  /** The list comprehension over `slots[:5]`. */
  function FormatAll(records: seq<AvailableTime>): (slots: seq<string>)
    ensures |slots| == |records|
    ensures forall i :: 0 <= i < |records| ==> slots[i] == FormatSlot(records[i].startTime)
  {
    if records == [] then [] else [FormatSlot(records[0].startTime)] + FormatAll(records[1..])
  }

  function Min(a: nat, b: nat): nat { if a <= b then a else b }

  /** Step 4: the first five records in order, each formatted; nothing for an empty collection. */
  function FormatSlots(records: seq<AvailableTime>): (slots: seq<string>)
    ensures |slots| == Min(MaxSlots, |records|)
    ensures forall i :: 0 <= i < |slots| ==> slots[i] == FormatSlot(records[i].startTime)
  {
    if records == [] then [] else FormatAll(records[..Min(MaxSlots, |records|)])
  }

  /**
   * `get_user_slots(access_token)`: list the event types, take the first,
   * ask for its availability over the next seven days and format at most
   * five start times. Any non-200 answer raises; an empty availability
   * collection is an empty list, not an error.
   */
  function GetUserSlots(
    accessToken: string,
    now: int,
    getEventTypes: string -> Response<EventType>,
    postAvailability: AvailabilityQuery -> Response<AvailableTime>): (r: Result<seq<string>, SlotError>)
    ensures r.Success? ==> |r.value| <= MaxSlots
    ensures r.Success? ==> forall i :: 0 <= i < |r.value| ==> 'T' !in r.value[i] && 'Z' !in r.value[i]
  {
    match ChooseEventType(getEventTypes(BearerHeader(accessToken)))
    case Failure(e) => Failure(e)
    case Success(uri) =>
      var res := postAvailability(AvailabilityWindow(BearerHeader(accessToken), uri, now));
      if res.status != OkStatus then Failure(AvailabilityFailed(res.body))
      else if res.collection == [] then Success([])
      else Success(FormatSlots(res.collection))
  }

  /** A failed or empty event-type listing is the error, and the availability request is never consulted. */
  lemma EventTypeFailureStops(
    accessToken: string, now: int,
    getEventTypes: string -> Response<EventType>,
    postAvailability: AvailabilityQuery -> Response<AvailableTime>,
    otherAvailability: AvailabilityQuery -> Response<AvailableTime>)
    requires ChooseEventType(getEventTypes(BearerHeader(accessToken))).Failure?
    ensures var r := GetUserSlots(accessToken, now, getEventTypes, postAvailability);
      r.Failure? && r == GetUserSlots(accessToken, now, getEventTypes, otherAvailability)
    ensures var res := getEventTypes(BearerHeader(accessToken));
      GetUserSlots(accessToken, now, getEventTypes, postAvailability)
        == Failure(if res.status != OkStatus then EventTypesFailed(res.body) else NoEventTypes)
  {
  }

  /**
   * Once an event type is chosen, the outcome is decided by the answer to
   * exactly one query: the seven-day window from `now` for the first event
   * type, with the caller's bearer token. A non-200 answer is an error, an
   * empty one an empty list, and otherwise the first five start times in
   * order, formatted.
   */
  lemma AvailabilityOutcome(
    accessToken: string, now: int,
    getEventTypes: string -> Response<EventType>,
    postAvailability: AvailabilityQuery -> Response<AvailableTime>)
    requires var res := getEventTypes(BearerHeader(accessToken));
      res.status == OkStatus && |res.collection| > 0
    ensures var events := getEventTypes("Bearer " + accessToken);
      var q := AvailabilityQuery("Bearer " + accessToken, events.collection[0].uri, now,
                                 now + 7 * 86_400_000_000, "Asia/Tashkent");
      var res := postAvailability(q);
      var r := GetUserSlots(accessToken, now, getEventTypes, postAvailability);
      && (res.status != 200 ==> r == Failure(AvailabilityFailed(res.body)))
      && (res.status == 200 ==> r.Success?)
      && (res.status == 200 && res.collection == [] ==> r == Success([]))
      && (r.Success? ==> |r.value| == Min(5, |res.collection|))
      && (r.Success? ==> forall i :: 0 <= i < |r.value| ==>
            r.value[i] == FormatChars(res.collection[i].startTime))
  {
    var events := getEventTypes(BearerHeader(accessToken));
    var res := postAvailability(AvailabilityWindow(BearerHeader(accessToken), events.collection[0].uri, now));
    forall i | 0 <= i < Min(5, |res.collection|) {
      FormatSlotIsFormatChars(res.collection[i].startTime);
    }
  }
}
