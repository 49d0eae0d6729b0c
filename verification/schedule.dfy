/** The schedule page: loading the viewer's events, the add/edit form and
    deletion.

    Requests are outputs and responses are inputs: each handler returns the
    page state it leaves and the requests it issued, in order. */
module Schedule {
  import opened Common
  import opened Records
  import opened Text

  /** The form fields, all strings; the date and the times come from date
      and time inputs. */
  datatype EventForm = EventForm(title: string, date: string, startTime: string, endTime: string)

  const EmptyForm: EventForm := EventForm("", "", "", "")

  /** Date and time are joined by this character in stored timestamps. */
  const DateTimeSeparator: char := 'T'

  datatype Method = Get | Post | Put | Delete

  /** The JSON body of a save: the title, the joined timestamps and the
      viewer id (dropped when undefined). */
  datatype EventBody = EventBody(title: string, startTime: string, endTime: string, userId: Option<string>)

  datatype Request = Request(verb: Method, url: string, body: Option<EventBody>)

  /** A list response: ok with a body that may be null, or not ok with its
      status, or a thrown error. */
  datatype FetchResponse = FetchOk(body: Option<seq<Event>>) | FetchNotOk(status: int) | FetchError

  /** A save or delete response: ok, or anything else. */
  datatype MutationResponse = MutationOk | MutationFailed

  /** Page state: the listed events, the event being edited, the form. */
  datatype Page = Page(events: seq<Event>, current: Option<Event>, form: EventForm)

  datatype Outcome = Outcome(page: Page, requests: seq<Request>)

  const NotFound: int := 404

  /** `${apiUrl}/users/${user}/events`. */
  function EventsUrl(apiUrl: string, user: Option<string>): string {
    apiUrl + "/users/" + Interpolate(user) + "/events"
  }

  /** `${apiUrl}/users/${user}/events/${id}`. */
  function EventUrl(apiUrl: string, user: Option<string>, id: Option<string>): (r: string)
    ensures id.Some? ==> r == EventsUrl(apiUrl, user) + "/" + id.value
    ensures id.None? ==> r == EventsUrl(apiUrl, user) + "/undefined"
  {
    EventsUrl(apiUrl, user) + "/" + Interpolate(id)
  }

  /** `fetchEvents`: nothing happens without a user or while the user is
      loading; a 404, a null body or an empty body all give the empty list;
      other failures keep the listed events. */
  function FetchEvents(p: Page, user: Option<string>, loading: bool, apiUrl: string, response: FetchResponse): (r: Outcome)
    ensures user.None? || loading ==> r == Outcome(p, [])
    ensures user.Some? && !loading ==> r.requests == [Request(Get, EventsUrl(apiUrl, user), None)]
    ensures r.page.current == p.current && r.page.form == p.form
    ensures r.requests != [] && response.FetchNotOk? && response.status == NotFound ==> r.page.events == []
    ensures r.requests != [] && response.FetchOk? ==>
      r.page.events == (if response.body.Some? then response.body.value else [])
    ensures r.page.events != p.events ==>
      response.FetchOk? || (response.FetchNotOk? && response.status == NotFound)
  {
    if user.None? || loading then Outcome(p, [])
    else
      var request := Request(Get, EventsUrl(apiUrl, user), None);
      match response
      case FetchNotOk(status) =>
        if status == NotFound then Outcome(p.(events := []), [request])
        else Outcome(p, [request])
      case FetchError => Outcome(p, [request])
      case FetchOk(body) =>
        var data := match body case None => [] case Some(d) => d;
        if |data| == 0 then Outcome(p.(events := []), [request])
        else Outcome(p.(events := data), [request])
  }

  /** Some required field is empty (`!title || !date || ...`). */
  predicate MissingField(f: EventForm) {
    f.title == "" || f.date == "" || f.startTime == "" || f.endTime == ""
  }

  /** The body of a save: start and end share the form's date. */
  function BodyFor(f: EventForm, user: Option<string>): (b: EventBody)
    ensures b.title == f.title && b.userId == user
    ensures |b.startTime| == |f.date| + 1 + |f.startTime| && |b.endTime| == |f.date| + 1 + |f.endTime|
    ensures b.startTime[..|f.date| + 1] == b.endTime[..|f.date| + 1] == f.date + [DateTimeSeparator]
    ensures b.startTime[|f.date| + 1..] == f.startTime && b.endTime[|f.date| + 1..] == f.endTime
  {
    var start := f.date + "T" + f.startTime;
    var end := f.date + "T" + f.endTime;
    assert start[..|f.date| + 1] == f.date + [DateTimeSeparator];
    assert end[..|f.date| + 1] == f.date + [DateTimeSeparator];
    EventBody(f.title, start, end, user)
  }

  /** The save request: PUT to the edited event's URL while an event is
      being edited, POST to the collection otherwise. */
  function SaveRequest(p: Page, user: Option<string>, apiUrl: string): (q: Request)
    ensures q.verb == Put <==> p.current.Some?
    ensures q.verb == Post <==> p.current.None?
    ensures p.current.Some? ==> q.url == EventUrl(apiUrl, user, p.current.value.id)
    ensures p.current.None? ==> q.url == EventsUrl(apiUrl, user)
    ensures q.body == Some(BodyFor(p.form, user))
  {
    match p.current
    case Some(e) => Request(Put, EventUrl(apiUrl, user, e.id), Some(BodyFor(p.form, user)))
    case None => Request(Post, EventsUrl(apiUrl, user), Some(BodyFor(p.form, user)))
  }

  /** `saveEvent`. With a required field empty nothing is sent and nothing
      changes. Otherwise the save is sent; on success the list is fetched
      again; in every case the form is then emptied and editing ends. */
  function SaveEvent(p: Page, user: Option<string>, loading: bool, apiUrl: string,
                     response: MutationResponse, refetch: FetchResponse): (r: Outcome)
    ensures MissingField(p.form) ==> r == Outcome(p, [])
    ensures !MissingField(p.form) ==>
      && |r.requests| >= 1 && r.requests[0] == SaveRequest(p, user, apiUrl)
      && r.page.form == EmptyForm && r.page.current == None
    ensures !MissingField(p.form) && response.MutationFailed? ==>
      r.requests == [SaveRequest(p, user, apiUrl)] && r.page.events == p.events
    ensures !MissingField(p.form) && response.MutationOk? ==>
      var f := FetchEvents(p, user, loading, apiUrl, refetch);
      r.requests[1..] == f.requests && r.page.events == f.page.events
  {
    if MissingField(p.form) then Outcome(p, [])
    else
      var request := SaveRequest(p, user, apiUrl);
      match response
      case MutationFailed => Outcome(p.(form := EmptyForm, current := None), [request])
      case MutationOk =>
        var f := FetchEvents(p, user, loading, apiUrl, refetch);
        Outcome(f.page.(form := EmptyForm, current := None), [request] + f.requests)
  }

  /** `deleteEvent`: a missing or empty id sends nothing; otherwise DELETE the
      event's URL and, on success, fetch the list again. */
  function DeleteEvent(p: Page, user: Option<string>, loading: bool, apiUrl: string, id: Option<string>,
                       response: MutationResponse, refetch: FetchResponse): (r: Outcome)
    ensures Falsy(id) ==> r == Outcome(p, [])
    ensures !Falsy(id) ==> |r.requests| >= 1 && r.requests[0] == Request(Delete, EventUrl(apiUrl, user, id), None)
    ensures !Falsy(id) && response.MutationFailed? ==> r == Outcome(p, [r.requests[0]])
    ensures !Falsy(id) && response.MutationOk? ==>
      var f := FetchEvents(p, user, loading, apiUrl, refetch);
      r.requests[1..] == f.requests && r.page == f.page
  {
    if Falsy(id) then Outcome(p, [])
    else
      var request := Request(Delete, EventUrl(apiUrl, user, id), None);
      match response
      case MutationFailed => Outcome(p, [request])
      case MutationOk =>
        var f := FetchEvents(p, user, loading, apiUrl, refetch);
        Outcome(f.page, [request] + f.requests)
  }

  /** The edit button: the form gets the title, the start's date and time and
      the end's time; the end's date is not read. */
  function EditEvent(p: Page, e: Event): (r: Page)
    ensures r.current == Some(e) && r.events == p.events
    ensures r.form.title == e.title
    ensures DateTimeSeparator !in r.form.date && DateTimeSeparator !in r.form.startTime
    ensures DateTimeSeparator !in r.form.endTime
  {
    p.(current := Some(e),
       form := EventForm(
         e.title,
         SplitPart(e.startTime, DateTimeSeparator, 0),
         SplitPart(e.startTime, DateTimeSeparator, 1),
         SplitPart(e.endTime, DateTimeSeparator, 1)))
  }

  /** `date + "T" + time` taken apart again. */
  lemma StampSplits(date: string, time: string)
    requires DateTimeSeparator !in date && DateTimeSeparator !in time
    ensures Split(date + "T" + time, DateTimeSeparator) == [date, time]
  {
    SplitJoin([date, time], DateTimeSeparator);
    assert [date, time][1..] == [time];
  }

  /** Saving a form whose date and times hold no "T" and then editing the
      stored event gives the same form back. */
  lemma EditAfterSave(p: Page, f: EventForm, user: Option<string>, id: Option<string>)
    requires DateTimeSeparator !in f.date && DateTimeSeparator !in f.startTime
    requires DateTimeSeparator !in f.endTime
    ensures var b := BodyFor(f, user);
      EditEvent(p, Event(id, b.title, b.startTime, b.endTime, b.userId)).form == f
  {
    StampSplits(f.date, f.startTime);
    StampSplits(f.date, f.endTime);
  }

  /** An end on another day is edited as if it were on the start's day. */
  lemma EditDiscardsEndDate(p: Page, e: Event, endDate: string, endTime: string)
    requires DateTimeSeparator !in endDate && DateTimeSeparator !in endTime
    ensures EditEvent(p, e.(endTime := endDate + "T" + endTime)).form
      == EditEvent(p, e).form.(endTime := endTime)
  {
    StampSplits(endDate, endTime);
  }

  /** Updating the edited event and deleting it address the same resource. */
  lemma UpdateAndDeleteSameUrl(p: Page, e: Event, user: Option<string>, loading: bool, apiUrl: string,
                               r1: MutationResponse, r2: MutationResponse, refetch: FetchResponse)
    requires !MissingField(p.form) && !Falsy(e.id)
    ensures SaveEvent(p.(current := Some(e)), user, loading, apiUrl, r1, refetch).requests[0].url
      == DeleteEvent(p, user, loading, apiUrl, e.id, r2, refetch).requests[0].url
  {
  }
}
