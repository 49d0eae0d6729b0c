/** The thread-list page: the initial fetches, the realtime INSERT handler
    and the create-thread form.

    The page holds two lists, all threads and the viewer's own ("mine"),
    both newest first. Network and realtime results are parameters: a fetch
    or lookup outcome is passed in, and the functions return the page state
    the handlers leave behind. */
module Threads {
  import opened Common
  import opened Records
  import opened Chronology
  import opened Text

  /** Outcome of `fetchUsername`: the looked-up name, or a failed request. */
  datatype UsernameLookup = Found(username: string) | LookupFailed

  /** The name used when the lookup fails. */
  const UnknownUser: string := "Unknown"

  /** The form's only error: title or content left blank. */
  datatype FormError = TitleAndContentRequired

  datatype ThreadForm = ThreadForm(title: string, content: string)

  const EmptyForm: ThreadForm := ThreadForm("", "")

  datatype Page = Page(
    threads: seq<Thread>,
    mine: seq<Thread>,
    loading: bool,
    showForm: bool,
    form: ThreadForm,
    error: Option<FormError>)

  /** What the page promises about both lists: newest first, no repeated id. */
  predicate Valid(p: Page) {
    SortedDesc(p.threads) && DistinctIds(p.threads)
    && SortedDesc(p.mine) && DistinctIds(p.mine)
  }

  /** `fetchThreads`: an ok body replaces the list, sorted newest first; a
      failure keeps the old list. Loading ends either way. */
  function FetchThreads(p: Page, response: Response<seq<Thread>>): (r: Page)
    ensures !r.loading
    ensures response.Ok? ==>
      SortedDesc(r.threads) && multiset(r.threads) == multiset(response.data)
    ensures response.Failed? ==> r.threads == p.threads
    ensures r.mine == p.mine && r.form == p.form && r.showForm == p.showForm && r.error == p.error
  {
    match response
    case Ok(data) => p.(threads := SortDesc(data), loading := false)
    case Failed => p.(loading := false)
  }

  /** `fetchUserThreads`: as `fetchThreads`, for the viewer's own list, and
      without touching the loading flag. */
  function FetchUserThreads(p: Page, response: Response<seq<Thread>>): (r: Page)
    ensures response.Ok? ==>
      SortedDesc(r.mine) && multiset(r.mine) == multiset(response.data)
    ensures response.Failed? ==> r.mine == p.mine
    ensures r.threads == p.threads && r.loading == p.loading && r.form == p.form
    ensures r.showForm == p.showForm && r.error == p.error
  {
    match response
    case Ok(data) => p.(mine := SortDesc(data))
    case Failed => p
  }

  /** The thread the realtime handler merges: the payload with its username
      replaced by the looked-up name, or "Unknown" when the lookup failed.
      The event is never dropped. */
  function Complete(payload: Thread, lookup: UsernameLookup): (t: Thread)
    ensures t.id == payload.id && t.title == payload.title && t.content == payload.content
    ensures t.userId == payload.userId && t.createdAt == payload.createdAt
    ensures lookup.Found? ==> t.username == lookup.username
    ensures lookup.LookupFailed? ==> t.username == UnknownUser
  {
    var name := match lookup
      case Found(n) => n
      case LookupFailed => UnknownUser;
    payload.(username := name)
  }

  /** The functional update both realtime branches apply: suppress a thread
      whose id is already listed, otherwise prepend and re-sort. */
  function MergeInsert(prev: seq<Thread>, t: Thread): (r: seq<Thread>)
    ensures HasId(prev, t.id) ==> r == prev
    ensures !HasId(prev, t.id) ==>
      |r| == |prev| + 1 && multiset(r) == multiset(prev) + multiset{t}
    ensures SortedDesc(prev) ==> SortedDesc(r)
  {
    if HasId(prev, t.id) then prev else SortDesc([t] + prev)
  }

  /** A merge never introduces a repeated id. */
  lemma MergeInsertValid(prev: seq<Thread>, t: Thread)
    ensures DistinctIds(prev) ==> DistinctIds(MergeInsert(prev, t))
  {
    if DistinctIds(prev) && !HasId(prev, t.id) {
      ConsDistinct(t, prev);
      SortDescDistinct([t] + prev);
    }
  }

  /** Into a sorted list, a fresh thread lands exactly where the stable
      insertion puts it, and nothing else moves. */
  lemma MergeInsertFresh(prev: seq<Thread>, t: Thread)
    requires SortedDesc(prev) && !HasId(prev, t.id)
    ensures var k := NewerPrefix(prev, t.createdAt);
      MergeInsert(prev, t) == prev[..k] + [t] + prev[k..]
  {
    SortPrepended(t, prev);
    InsertIsSplice(t, prev);
  }

  /** The realtime INSERT handler, once its username lookup has completed.
      `viewer` is the viewer's id as captured when the channel was opened. */
  function RealtimeInsert(p: Page, viewer: Option<string>, payload: Thread, lookup: UsernameLookup): (r: Page)
    ensures r.threads == MergeInsert(p.threads, Complete(payload, lookup))
    ensures viewer == Some(payload.userId) ==> r.mine == MergeInsert(p.mine, Complete(payload, lookup))
    ensures viewer != Some(payload.userId) ==> r.mine == p.mine
    ensures r.loading == p.loading && r.showForm == p.showForm && r.form == p.form && r.error == p.error
  {
    var t := Complete(payload, lookup);
    var mine := if viewer == Some(payload.userId) then MergeInsert(p.mine, t) else p.mine;
    p.(threads := MergeInsert(p.threads, t), mine := mine)
  }

  /** A realtime insert keeps the page invariant. */
  lemma RealtimeInsertValid(p: Page, viewer: Option<string>, payload: Thread, lookup: UsernameLookup)
    requires Valid(p)
    ensures Valid(RealtimeInsert(p, viewer, payload, lookup))
  {
    var t := Complete(payload, lookup);
    MergeInsertValid(p.threads, t);
    MergeInsertValid(p.mine, t);
  }

  /** After a merge the thread's id is always listed. */
  lemma MergeInsertLists(prev: seq<Thread>, t: Thread)
    ensures HasId(MergeInsert(prev, t), t.id)
  {
    if !HasId(prev, t.id) {
      assert t in multiset(MergeInsert(prev, t));
    }
  }

  /** Delivering the same INSERT twice has the effect of delivering it once. */
  lemma RealtimeInsertIdempotent(p: Page, viewer: Option<string>, payload: Thread, lookup: UsernameLookup, lookup2: UsernameLookup)
    ensures var once := RealtimeInsert(p, viewer, payload, lookup);
      RealtimeInsert(once, viewer, payload, lookup2) == once
  {
    MergeInsertLists(p.threads, Complete(payload, lookup));
    MergeInsertLists(p.mine, Complete(payload, lookup));
  }

  /** A thread counts as blank when `trim()` leaves nothing, i.e. when every
      character is whitespace. */
  predicate Blank(s: string) {
    Trim(s) == ""
  }

  /** The POST body of `createThread`: the untrimmed form fields and the
      viewer id (dropped by `JSON.stringify` when undefined). */
  datatype CreateRequest = CreateRequest(title: string, content: string, userId: Option<string>)

  /** The POST outcome: the created thread, or a failure. */
  datatype CreateResponse = Created(data: Thread) | CreateFailed

  datatype CreateResult = CreateResult(page: Page, request: Option<CreateRequest>)

  /** `createThread` as written: after validation, a created thread is put in
      front of both lists and both are re-sorted, with no duplicate check. */
  function CreateThread(p: Page, viewer: Option<string>, response: CreateResponse): (r: CreateResult)
    ensures (AllWhitespace(p.form.title) || AllWhitespace(p.form.content)) ==>
      r.request == None && r.page == p.(error := Some(TitleAndContentRequired))
    ensures !AllWhitespace(p.form.title) && !AllWhitespace(p.form.content) ==>
      r.request == Some(CreateRequest(p.form.title, p.form.content, viewer)) && r.page.error == None
    ensures r.request.Some? && response.CreateFailed? ==> r.page == p.(error := None)
    ensures r.request.Some? && response.Created? ==>
      && |r.page.threads| == |p.threads| + 1
      && multiset(r.page.threads) == multiset(p.threads) + multiset{response.data}
      && SortedDesc(r.page.threads)
      && |r.page.mine| == |p.mine| + 1
      && multiset(r.page.mine) == multiset(p.mine) + multiset{response.data}
      && SortedDesc(r.page.mine)
      && r.page.form == EmptyForm && !r.page.showForm && r.page.loading == p.loading
  {
    TrimBlank(p.form.title);
    TrimBlank(p.form.content);
    if Blank(p.form.title) || Blank(p.form.content) then
      CreateResult(p.(error := Some(TitleAndContentRequired)), None)
    else
      var request := Some(CreateRequest(p.form.title, p.form.content, viewer));
      match response
      case CreateFailed => CreateResult(p.(error := None), request)
      case Created(data) =>
        CreateResult(
          p.(threads := SortDesc([data] + p.threads), mine := SortDesc([data] + p.mine),
             form := EmptyForm, showForm := false, error := None),
          request)
  }

  /** Into sorted lists, a created thread is a plain stable insertion. */
  lemma CreateThreadInserts(p: Page, viewer: Option<string>, data: Thread)
    requires Valid(p)
    requires !AllWhitespace(p.form.title) && !AllWhitespace(p.form.content)
    ensures CreateThread(p, viewer, Created(data)).page.threads == Insert(data, p.threads)
    ensures CreateThread(p, viewer, Created(data)).page.mine == Insert(data, p.mine)
  {
    TrimBlank(p.form.title);
    TrimBlank(p.form.content);
    SortPrepended(data, p.threads);
    SortPrepended(data, p.mine);
  }

  /** The duplicate the missing check lets through: the realtime INSERT for
      the viewer's new thread completes before the POST response, and the
      thread then appears twice in both lists. */
  lemma CreateAfterRealtimeDuplicates()
    ensures var t := Thread("t1", "Hello", "First post", "alice", "u1", 100);
      var p0 := Page([], [], false, true, ThreadForm("Hello", "First post"), None);
      var p1 := RealtimeInsert(p0, Some("u1"), t.(username := ""), Found("alice"));
      var p2 := CreateThread(p1, Some("u1"), Created(t)).page;
      Valid(p1) && p2.threads == [t, t] && !DistinctIds(p2.threads)
  {
    var t := Thread("t1", "Hello", "First post", "alice", "u1", 100);
    var p0 := Page([], [], false, true, ThreadForm("Hello", "First post"), None);
    var p1 := RealtimeInsert(p0, Some("u1"), t.(username := ""), Found("alice"));
    assert Complete(t.(username := ""), Found("alice")) == t;
    assert !HasId([], t.id);
    assert SortDesc([t]) == [t] by {
      assert [t][1..] == [];
    }
    assert [t] + [] == [t];
    assert p1.threads == [t] && p1.mine == [t];
    assert !AllWhitespace(p1.form.title) by { assert !IsWhitespace(p1.form.title[0]); }
    assert !AllWhitespace(p1.form.content) by { assert !IsWhitespace(p1.form.content[0]); }
    CreateThreadInserts(p1, Some("u1"), t);
    var p2 := CreateThread(p1, Some("u1"), Created(t)).page;
    assert p2.threads == [t, t];
    assert p2.threads[0].id == p2.threads[1].id;
  }

  /** `createThread` with the duplicate check the realtime handler already
      has: a created thread whose id is listed leaves that list as it is. */
  function CreateThreadDeduplicated(p: Page, viewer: Option<string>, response: CreateResponse): (r: CreateResult)
    ensures (AllWhitespace(p.form.title) || AllWhitespace(p.form.content)) ==>
      r.request == None && r.page == p.(error := Some(TitleAndContentRequired))
    ensures !AllWhitespace(p.form.title) && !AllWhitespace(p.form.content) ==>
      r.request == Some(CreateRequest(p.form.title, p.form.content, viewer)) && r.page.error == None
    ensures r.request.Some? && response.CreateFailed? ==> r.page == p.(error := None)
    ensures r.request.Some? && response.Created? ==>
      && r.page.threads == MergeInsert(p.threads, response.data)
      && r.page.mine == MergeInsert(p.mine, response.data)
      && r.page.form == EmptyForm && !r.page.showForm && r.page.loading == p.loading
    ensures Valid(p) ==> Valid(r.page)
  {
    TrimBlank(p.form.title);
    TrimBlank(p.form.content);
    if Blank(p.form.title) || Blank(p.form.content) then
      CreateResult(p.(error := Some(TitleAndContentRequired)), None)
    else
      var request := Some(CreateRequest(p.form.title, p.form.content, viewer));
      match response
      case CreateFailed => CreateResult(p.(error := None), request)
      case Created(data) =>
        MergeInsertValid(p.threads, data);
        MergeInsertValid(p.mine, data);
        CreateResult(
          p.(threads := MergeInsert(p.threads, data), mine := MergeInsert(p.mine, data),
             form := EmptyForm, showForm := false, error := None),
          request)
  }

  /** What can happen to the page after it has loaded: a realtime INSERT
      whose lookup has completed, or a create submitted from the form. */
  datatype Action =
    | Arrived(payload: Thread, lookup: UsernameLookup)
    | Submitted(form: ThreadForm, response: CreateResponse)

  function Step(p: Page, viewer: Option<string>, a: Action): Page {
    match a
    case Arrived(payload, lookup) => RealtimeInsert(p, viewer, payload, lookup)
    case Submitted(form, response) => CreateThreadDeduplicated(p.(form := form), viewer, response).page
  }

  function Replay(p: Page, viewer: Option<string>, actions: seq<Action>): Page
    decreases |actions|
  {
    if |actions| == 0 then p else Replay(Step(p, viewer, actions[0]), viewer, actions[1..])
  }

  /** Whatever the realtime inserts and deduplicated creates, and in whatever
      order their lookups complete, both lists stay newest first with no
      repeated id. (The as-written create does not keep this; see
      `CreateAfterRealtimeDuplicates`.) */
  lemma {:induction false} ReplayValid(p: Page, viewer: Option<string>, actions: seq<Action>)
    requires Valid(p)
    ensures Valid(Replay(p, viewer, actions))
    decreases |actions|
  {
    if |actions| > 0 {
      match actions[0] {
        case Arrived(payload, lookup) => RealtimeInsertValid(p, viewer, payload, lookup);
        case Submitted(form, response) =>
      }
      ReplayValid(Step(p, viewer, actions[0]), viewer, actions[1..]);
    }
  }
}
