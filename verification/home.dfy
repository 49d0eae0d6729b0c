/** The home dashboard: the viewer's upcoming events and their three newest
    threads.

    Parsing a stored start time (`new Date(start_time)`) is a parameter
    `toTime` that yields no instant for an unparsable string, and the
    current instant is the parameter `now`. */
module Home {
  import opened Common
  import opened Records
  import opened Chronology

  /** How many threads the dashboard shows. */
  const ShownThreads: nat := 3

  /** The event starts strictly after `now`; an unparsable start (an
      invalid date, which compares false) is not upcoming. */
  predicate IsUpcoming(e: Event, now: int, toTime: string -> Option<int>) {
    var t := toTime(e.startTime);
    t.Some? && t.value > now
  }

  /** `data.filter(e => new Date(e.start_time) > new Date())`. */
  function Upcoming(events: seq<Event>, now: int, toTime: string -> Option<int>): (r: seq<Event>)
    ensures |r| <= |events|
    ensures multiset(r) <= multiset(events)
    ensures forall e :: e in r ==> IsUpcoming(e, now, toTime)
    ensures forall e :: e in events && IsUpcoming(e, now, toTime) ==> e in r
  {
    if |events| == 0 then []
    else
      var rest := Upcoming(events[1..], now, toTime);
      assert events == [events[0]] + events[1..];
      if IsUpcoming(events[0], now, toTime) then [events[0]] + rest else rest
  }

  /** The filter keeps relative order: filtering a concatenation is the
      concatenation of the filtered parts. */
  lemma {:induction false} UpcomingConcat(a: seq<Event>, b: seq<Event>, now: int, toTime: string -> Option<int>)
    ensures Upcoming(a + b, now, toTime) == Upcoming(a, now, toTime) + Upcoming(b, now, toTime)
  {
    if |a| > 0 {
      assert (a + b)[0] == a[0];
      assert (a + b)[1..] == a[1..] + b;
      UpcomingConcat(a[1..], b, now, toTime);
    } else {
      assert a + b == b;
    }
  }

  /** When every event is upcoming, the filter keeps the list as it is. */
  lemma {:induction false} UpcomingKeepsAll(events: seq<Event>, now: int, toTime: string -> Option<int>)
    requires forall i :: 0 <= i < |events| ==> IsUpcoming(events[i], now, toTime)
    ensures Upcoming(events, now, toTime) == events
  {
    if |events| > 0 {
      UpcomingKeepsAll(events[1..], now, toTime);
      assert events == [events[0]] + events[1..];
    }
  }

  /** A prefix of a sorted list is sorted and taken from the list. */
  lemma PrefixOfSorted(s: seq<Thread>, k: nat)
    requires SortedDesc(s) && k <= |s|
    ensures SortedDesc(s[..k])
    ensures multiset(s) - multiset(s[..k]) == multiset(s[k..])
    ensures multiset(s[..k]) <= multiset(s)
  {
    assert s == s[..k] + s[k..];
  }

  /** In a sorted list, every entry of a prefix is at least as new as every
      entry left out of it. */
  lemma PrefixDominates(s: seq<Thread>, k: nat)
    requires SortedDesc(s) && k <= |s|
    ensures forall x, y :: x in s[..k] && y in multiset(s) - multiset(s[..k]) ==> x.createdAt >= y.createdAt
  {
    PrefixOfSorted(s, k);
    forall x, y | x in s[..k] && y in multiset(s[k..])
      ensures x.createdAt >= y.createdAt
    {
      var i :| 0 <= i < k && s[..k][i] == x;
      assert y in s[k..];
      var j :| 0 <= j < |s| - k && s[k..][j] == y;
      assert s[i] == x && s[k + j] == y;
    }
  }

  /** `data.sort(newestFirst).slice(0, 3)`. */
  function Newest(data: seq<Thread>): (r: seq<Thread>)
    ensures |r| == if |data| < ShownThreads then |data| else ShownThreads
    ensures SortedDesc(r)
    ensures multiset(r) <= multiset(data)
    ensures forall x, y :: x in r && y in multiset(data) - multiset(r) ==> x.createdAt >= y.createdAt
  {
    var sorted := SortDesc(data);
    var k := if |data| < ShownThreads then |data| else ShownThreads;
    PrefixOfSorted(sorted, k);
    PrefixDominates(sorted, k);
    sorted[..k]
  }

  datatype HomePage = HomePage(events: seq<Event>, threads: seq<Thread>, loadingEvents: bool, loadingThreads: bool)

  /** The page state a fetch leaves and the URLs it requested. */
  datatype Outcome = Outcome(page: HomePage, requests: seq<string>)

  /** The home page's `fetchEvents`: without a user it returns at once,
      leaving even the loading flag as it was; otherwise the upcoming events
      of an ok response are shown and loading ends. */
  function FetchEvents(p: HomePage, apiUrl: string, user: Option<string>, now: int,
                       toTime: string -> Option<int>, response: Response<seq<Event>>): (r: Outcome)
    ensures user.None? ==> r == Outcome(p, [])
    ensures user.Some? ==> r.requests == [apiUrl + "/users/" + user.value + "/events"] && !r.page.loadingEvents
    ensures user.Some? && response.Ok? ==> r.page.events == Upcoming(response.data, now, toTime)
    ensures response.Failed? ==> r.page.events == p.events
    ensures r.page.threads == p.threads && r.page.loadingThreads == p.loadingThreads
  {
    match user
    case None => Outcome(p, [])
    case Some(id) =>
      var events := match response case Ok(data) => Upcoming(data, now, toTime) case Failed => p.events;
      Outcome(p.(events := events, loadingEvents := false), [apiUrl + "/users/" + id + "/events"])
  }

  /** The home page's `fetchThreads`: as above, showing the three newest of
      the viewer's threads. */
  function FetchThreads(p: HomePage, apiUrl: string, user: Option<string>, response: Response<seq<Thread>>): (r: Outcome)
    ensures user.None? ==> r == Outcome(p, [])
    ensures user.Some? ==> r.requests == [apiUrl + "/users/" + user.value + "/threads"] && !r.page.loadingThreads
    ensures user.Some? && response.Ok? ==>
      && r.page.threads == Newest(response.data)
      && |r.page.threads| <= ShownThreads && SortedDesc(r.page.threads)
      && multiset(r.page.threads) <= multiset(response.data)
    ensures response.Failed? ==> r.page.threads == p.threads
    ensures r.page.events == p.events && r.page.loadingEvents == p.loadingEvents
  {
    match user
    case None => Outcome(p, [])
    case Some(id) =>
      var threads := match response case Ok(data) => Newest(data) case Failed => p.threads;
      Outcome(p.(threads := threads, loadingThreads := false), [apiUrl + "/users/" + id + "/threads"])
  }

  /** With at most three threads, all of them are shown, newest first. */
  lemma NewestOfFew(data: seq<Thread>)
    requires |data| <= ShownThreads
    ensures Newest(data) == SortDesc(data)
  {
  }
}
