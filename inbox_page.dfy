/**
  The inbox page: a list of contact requests whose statuses are changed in
  place, a search box that narrows the list, and a selection mode in which a
  set of request ids is built up and then marked read, marked unread or
  deleted. Clicking a conversation hands its receiver to the chat service.
*/
module InboxPage {
  import opened Wrappers
  import opened JsString
  import opened Seqs
  import Json
  import ChatService

  datatype Status = Unread | Read | Replied

  /**
    One contact request. Only `status` is ever written after creation; the
    other fields the page reads are constants. The phone number, full message,
    property id and image, and the star flag are never read by the page's
    logic and are not kept.
  */
  class ContactRequest {
    const id: string
    const senderName: string
    const propertyTitle: string
    const messagePreview: string
    /** Creation time in milliseconds since the epoch. */
    const timestamp: int
    var status: Status

    constructor (id: string, senderName: string, propertyTitle: string, messagePreview: string,
                 timestamp: int, status: Status)
      ensures this.id == id && this.senderName == senderName && this.propertyTitle == propertyTitle
      ensures this.messagePreview == messagePreview && this.timestamp == timestamp && this.status == status
    {
      this.id := id;
      this.senderName := senderName;
      this.propertyTitle := propertyTitle;
      this.messagePreview := messagePreview;
      this.timestamp := timestamp;
      this.status := status;
    }
  }

  /** No two requests share an id (hence no request object appears twice). */
  predicate IdsDistinct(rs: seq<ContactRequest>) {
    forall i, j :: 0 <= i < j < |rs| ==> rs[i].id != rs[j].id
  }

  /** The sample list's ids '1' to '5' are distinct. */
  lemma SampleIdsDistinct(rs: seq<ContactRequest>)
    requires |rs| == 5 && rs[0].id == "1" && rs[1].id == "2" && rs[2].id == "3"
    requires rs[3].id == "4" && rs[4].id == "5"
    ensures IdsDistinct(rs)
  {
    forall i, j | 0 <= i < j < 5 ensures rs[i].id != rs[j].id {
      assert rs[i].id[0] != rs[j].id[0];
    }
  }

  /**
    The five sample requests `ngOnInit` starts from: ids '1' to '5', their
    statuses, and their ages of 10 and 45 minutes, 2 and 4 hours, and a day.
  */
  predicate SampleList(rs: seq<ContactRequest>, now: int)
    reads rs
  {
    && |rs| == 5
    && rs[0].id == "1" && rs[0].status == Unread && rs[0].timestamp == now - 10 * 60000
    && rs[1].id == "2" && rs[1].status == Read && rs[1].timestamp == now - 45 * 60000
    && rs[2].id == "3" && rs[2].status == Replied && rs[2].timestamp == now - 2 * 60 * 60000
    && rs[3].id == "4" && rs[3].status == Read && rs[3].timestamp == now - 4 * 60 * 60000
    && rs[4].id == "5" && rs[4].status == Unread && rs[4].timestamp == now - 24 * 60 * 60000
  }

  /** The five sample requests the page starts with, stamped relative to `now` (ms). */
  method SampleRequests(now: int) returns (rs: seq<ContactRequest>)
    ensures SampleList(rs, now) && fresh(rs)
  {
    var r1 := new ContactRequest("1", "Raj Sharma", "2BHK Apartment in Bandra",
      "Hi, I am interested in this 2BHK apartment. Could we schedule a visit...", now - 10 * 60000, Unread);
    var r2 := new ContactRequest("2", "Priya Patel", "3BHK Villa in Juhu",
      "Hello! I saw your property listing and I am very interested...", now - 45 * 60000, Read);
    var r3 := new ContactRequest("3", "Amit Kumar", "1BHK Studio in Andheri",
      "Good morning, I would like to know if pets are allowed...", now - 2 * 60 * 60000, Replied);
    var r4 := new ContactRequest("4", "Sneha Reddy", "2BHK Flat in Powai",
      "Hi, I am relocating to Mumbai for work. This property looks perfect...", now - 4 * 60 * 60000, Read);
    var r5 := new ContactRequest("5", "Vikash Singh", "4BHK Penthouse in Worli",
      "Interested in this property. What is the security deposit amount...", now - 24 * 60 * 60000, Unread);
    rs := [r1, r2, r3, r4, r5];
  }

  /** The statuses of a five-request list, spelled out. */
  lemma StatusesOfFive(rs: seq<ContactRequest>)
    requires |rs| == 5
    ensures StatusesOf(rs) == [rs[0].status, rs[1].status, rs[2].status, rs[3].status, rs[4].status]
  {
  }

  /** The ids of the requests, as a set. */
  function IdSet(rs: seq<ContactRequest>): set<string> {
    set i | 0 <= i < |rs| :: rs[i].id
  }

  /** `rs.findIndex(r => r.id === id)`. */
  function FindById(rs: seq<ContactRequest>, id: string): (k: int)
    ensures -1 <= k < |rs|
    ensures k == -1 <==> id !in IdSet(rs)
    ensures k >= 0 ==> rs[k].id == id && forall j :: 0 <= j < k ==> rs[j].id != id
  {
    if rs == [] then -1
    else if rs[0].id == id then 0
    else
      var k := FindById(rs[1..], id);
      assert IdSet(rs) == {rs[0].id} + IdSet(rs[1..]) by {
        forall x | x in IdSet(rs) ensures x in {rs[0].id} + IdSet(rs[1..]) {
          var i :| 0 <= i < |rs| && rs[i].id == x;
          if i > 0 { assert rs[1..][i - 1].id == x; }
        }
      }
      if k == -1 then -1 else k + 1
  }

  // ---- search ----

  /** The search term occurs, ignoring case, in the sender name, property title or preview. */
  predicate MatchesTerm(r: ContactRequest, term: string) {
    Contains(ToLower(r.senderName), term) || Contains(ToLower(r.propertyTitle), term)
    || Contains(ToLower(r.messagePreview), term)
  }

  /** `rs.filter(r => MatchesTerm(r, term))`. */
  function Matching(rs: seq<ContactRequest>, term: string): (out: seq<ContactRequest>)
    ensures IsSubsequence(out, rs)
    ensures forall i :: 0 <= i < |out| ==> out[i] in rs && MatchesTerm(out[i], term)
    ensures forall i :: 0 <= i < |rs| && MatchesTerm(rs[i], term) ==> rs[i] in out
  {
    if rs == [] then []
    else
      var tail := Matching(rs[1..], term);
      assert forall i :: 1 <= i < |rs| ==> rs[i] == rs[1..][i - 1];
      if MatchesTerm(rs[0], term) then [rs[0]] + tail else tail
  }

  /** What `filterRequests` shows for `term`: everything for a blank term, else the matches. */
  function SearchResults(rs: seq<ContactRequest>, term: string): (out: seq<ContactRequest>)
    ensures IsSubsequence(out, rs)
    ensures IsBlank(term) ==> out == rs
    ensures !IsBlank(term) ==> forall i :: 0 <= i < |out| ==> MatchesTerm(out[i], term)
    ensures !IsBlank(term) ==> forall i :: 0 <= i < |rs| && MatchesTerm(rs[i], term) ==> rs[i] in out
  {
    SubsequenceReflexive(rs);
    if IsBlank(term) then rs else Matching(rs, term)
  }

  // ---- deletion ----

  /** The requests whose id is not in `ids`, in their order. */
  function Without(rs: seq<ContactRequest>, ids: set<string>): (out: seq<ContactRequest>)
    ensures IsSubsequence(out, rs)
    ensures forall i :: 0 <= i < |out| ==> out[i] in rs && out[i].id !in ids
    ensures forall i :: 0 <= i < |rs| && rs[i].id !in ids ==> rs[i] in out
  {
    if rs == [] then []
    else
      var tail := Without(rs[1..], ids);
      assert forall i :: 1 <= i < |rs| ==> rs[i] == rs[1..][i - 1];
      if rs[0].id in ids then tail else [rs[0]] + tail
  }

  /** Removing ids that no request has changes nothing. */
  lemma {:induction false} WithoutAbsent(rs: seq<ContactRequest>, ids: set<string>, id: string)
    requires id !in IdSet(rs)
    ensures Without(rs, ids + {id}) == Without(rs, ids)
    decreases |rs|
  {
    if rs != [] {
      IdSetCons(rs);
      WithoutAbsent(rs[1..], ids, id);
    }
  }

  /** A non-empty list's ids: the head's and the tail's. */
  lemma IdSetCons(rs: seq<ContactRequest>)
    requires rs != []
    ensures IdSet(rs) == {rs[0].id} + IdSet(rs[1..])
  {
    forall x | x in IdSet(rs) ensures x in {rs[0].id} + IdSet(rs[1..]) {
      var i :| 0 <= i < |rs| && rs[i].id == x;
      if i > 0 { assert rs[1..][i - 1].id == x; }
    }
    forall x | x in IdSet(rs[1..]) ensures x in IdSet(rs) {
      var i :| 0 <= i < |rs[1..]| && rs[1..][i].id == x;
      assert rs[i + 1].id == x;
    }
  }

  /** The tail of a list with distinct ids has distinct ids, none of them the head's. */
  lemma DistinctTail(rs: seq<ContactRequest>)
    requires rs != [] && IdsDistinct(rs)
    ensures IdsDistinct(rs[1..]) && rs[0].id !in IdSet(rs[1..])
  {
    var t := rs[1..];
    forall i, j | 0 <= i < j < |t| ensures t[i].id != t[j].id {
      assert t[i] == rs[i + 1] && t[j] == rs[j + 1];
    }
    forall i | 0 <= i < |t| ensures t[i].id != rs[0].id {
      assert t[i] == rs[i + 1];
    }
  }

  /** `splice(findIndex(r => r.id === id), 1)` guarded by `index > -1`. */
  function SpliceById(rs: seq<ContactRequest>, id: string): seq<ContactRequest> {
    var k := FindById(rs, id);
    if k > -1 then rs[..k] + rs[k + 1..] else rs
  }

  /** Searching a list with a known head: the head, or one past the tail's match. */
  lemma FindByIdCons(x: ContactRequest, t: seq<ContactRequest>, id: string)
    ensures FindById([x] + t, id)
      == if x.id == id then 0 else if FindById(t, id) == -1 then -1 else FindById(t, id) + 1
  {
    assert ([x] + t)[1..] == t;
  }

  /** Removing position `k + 1` of `[x] + t` keeps `x` and removes position `k` of `t`. */
  lemma RemoveAtCons(x: ContactRequest, t: seq<ContactRequest>, k: nat)
    requires k < |t|
    ensures ([x] + t)[..k + 1] + ([x] + t)[k + 2..] == [x] + (t[..k] + t[k + 1..])
  {
    var rs := [x] + t;
    assert rs[..k + 1] == [x] + t[..k];
    assert rs[k + 2..] == t[k + 1..];
  }

  /** Splicing by id out of a list with a known head. */
  lemma SpliceByIdCons(x: ContactRequest, t: seq<ContactRequest>, id: string)
    ensures SpliceById([x] + t, id) == if x.id == id then t else [x] + SpliceById(t, id)
  {
    FindByIdCons(x, t, id);
    if x.id == id {
      assert ([x] + t)[1..] == t;
    } else if FindById(t, id) > -1 {
      RemoveAtCons(x, t, FindById(t, id));
    }
  }

  /**
    Splicing `id` out of `Without(rs, done)` when ids are distinct leaves
    `Without(rs, done + {id})`.
  */
  lemma {:induction false} SpliceFound(rs: seq<ContactRequest>, done: set<string>, id: string)
    requires IdsDistinct(rs) && id !in done
    ensures SpliceById(Without(rs, done), id) == Without(rs, done + {id})
    decreases |rs|
  {
    if rs != [] {
      var t := rs[1..];
      DistinctTail(rs);
      SpliceFound(t, done, id);
      var tc := Without(t, done);
      if rs[0].id !in done {
        SpliceByIdCons(rs[0], tc, id);
        if rs[0].id == id {
          WithoutAbsent(t, done, id);
        }
      }
    }
  }

  // ---- selection ----

  /** `toggleSelection`'s effect on the set: the id's membership flips, nothing else changes. */
  function Toggled(sel: set<string>, id: string): (r: set<string>)
    ensures id in r <==> id !in sel
    ensures r - {id} == sel - {id}
  {
    if id in sel then sel - {id} else sel + {id}
  }

  /** Toggling the same id twice restores the selection. */
  lemma ToggleTwice(sel: set<string>, id: string)
    ensures Toggled(Toggled(sel, id), id) == sel
  {
    var once := Toggled(sel, id);
    var twice := Toggled(once, id);
    assert id in twice <==> id in sel;
    assert twice - {id} == sel - {id};
    assert forall x :: x in twice <==> x in sel by {
      forall x ensures x in twice <==> x in sel {
        if x != id {
          assert x in twice <==> x in twice - {id};
          assert x in sel <==> x in sel - {id};
        }
      }
    }
  }

  /** `filteredRequests.forEach(r => selected.add(r.id))`. */
  method AddIds(sel: set<string>, rs: seq<ContactRequest>) returns (r: set<string>)
    ensures r == sel + IdSet(rs)
  {
    r := sel;
    var k := 0;
    while k < |rs|
      invariant 0 <= k <= |rs|
      invariant r == sel + IdSet(rs[..k])
    {
      assert IdSet(rs[..k + 1]) == IdSet(rs[..k]) + {rs[k].id} by {
        assert forall i :: 0 <= i < k ==> rs[..k + 1][i] == rs[..k][i];
        assert rs[..k + 1][k] == rs[k];
      }
      r := r + {rs[k].id};
      k := k + 1;
    }
    assert rs[..k] == rs;
  }

  /** The selection and mode after `selectAll`. */
  function SelectedAll(sel: set<string>, mode: bool, shown: seq<ContactRequest>): (r: (set<string>, bool))
    ensures |sel| == |shown| ==> r == ({}, false)
    ensures |sel| != |shown| ==> IdSet(shown) <= r.0 && sel <= r.0 && r.1 == mode
    ensures |sel| != |shown| ==> forall x :: x in r.0 ==> x in sel || x in IdSet(shown)
  {
    if |sel| == |shown| then ({}, false) else (sel + IdSet(shown), mode)
  }

  /** There are as many distinct ids as requests when no id repeats. */
  lemma {:induction false} IdSetSize(rs: seq<ContactRequest>)
    requires IdsDistinct(rs)
    ensures |IdSet(rs)| == |rs|
    decreases |rs|
  {
    if rs != [] {
      DistinctTail(rs);
      IdSetSize(rs[1..]);
      IdSetCons(rs);
    }
  }

  /**
    With distinct ids and a selection taken from the shown requests, `selectAll`
    pressed twice starts from a partial selection and ends with none: the first
    press selects everything shown, the second clears.
  */
  lemma SelectAllTwice(sel: set<string>, mode: bool, shown: seq<ContactRequest>)
    requires IdsDistinct(shown) && sel <= IdSet(shown) && |sel| != |shown|
    ensures SelectedAll(sel, mode, shown).0 == IdSet(shown)
    ensures SelectedAll(SelectedAll(sel, mode, shown).0, mode, shown) == ({}, false)
  {
    IdSetSize(shown);
  }

  // ---- statuses and counts ----

  /** The statuses of the requests, in order. */
  function StatusesOf(rs: seq<ContactRequest>): (r: seq<Status>)
    reads rs
    ensures |r| == |rs| && forall i :: 0 <= i < |rs| ==> r[i] == rs[i].status
  {
    if rs == [] then [] else [rs[0].status] + StatusesOf(rs[1..])
  }

  /** `filter(r => r.status === 'unread').length`. */
  function CountUnread(s: seq<Status>): (n: nat)
    ensures n == multiset(s)[Unread]
    ensures n <= |s|
  {
    if s == [] then 0
    else
      assert s == [s[0]] + s[1..];
      (if s[0] == Unread then 1 else 0) + CountUnread(s[1..])
  }

  /** The statuses after marking the requests whose id is selected. */
  function Marked(rs: seq<ContactRequest>, before: seq<Status>, sel: set<string>, st: Status): (r: seq<Status>)
    requires |before| == |rs|
    ensures |r| == |rs|
    ensures forall i :: 0 <= i < |rs| ==> r[i] == if rs[i].id in sel then st else before[i]
  {
    seq(|rs|, i requires 0 <= i < |rs| => if rs[i].id in sel then st else before[i])
  }

  /** Statuses that agree with `Marked` index by index are `Marked`. */
  lemma MarkedPointwise(rs: seq<ContactRequest>, before: seq<Status>, after: seq<Status>, sel: set<string>, st: Status)
    requires |before| == |rs| == |after|
    requires forall i :: 0 <= i < |rs| ==> after[i] == if rs[i].id in sel then st else before[i]
    ensures after == Marked(rs, before, sel, st)
  {
  }

  /** After marking the selection read, the unread ones are exactly the unread unselected ones. */
  lemma {:induction false} MarkReadCount(rs: seq<ContactRequest>, before: seq<Status>, sel: set<string>)
    requires |before| == |rs|
    ensures CountUnread(Marked(rs, before, sel, Read)) <= CountUnread(before)
    ensures CountUnread(Marked(rs, before, sel, Read)) == 0 <== forall i :: 0 <= i < |rs| && before[i] == Unread ==> rs[i].id in sel
    decreases |rs|
  {
    if rs != [] {
      MarkReadCount(rs[1..], before[1..], sel);
      var m := Marked(rs, before, sel, Read);
      assert m[1..] == Marked(rs[1..], before[1..], sel, Read);
    }
  }

  /** `getStatusIcon` of the inbox: only 'read' and 'replied' have an icon. */
  function StatusIcon(status: string): (icon: string)
    ensures icon != "" <==> status == "read" || status == "replied"
    ensures status == "read" ==> icon == "checkmark-outline"
    ensures status == "replied" ==> icon == "checkmark-done-outline"
  {
    match status
    case "unread" => ""
    case "read" => "checkmark-outline"
    case "replied" => "checkmark-done-outline"
    case _ => ""
  }

  // ---- time ago ----

  /** The buckets of `getTimeAgo`; `LocaleDate` is `toLocaleDateString()`, not modelled. */
  datatype TimeAgo = Now | Minutes(n: nat) | Hours(n: nat) | Days(n: nat) | LocaleDate

  const MinuteMs := 60000
  const HourMs := 3600000
  const DayMs := 86400000

  /**
    `getTimeAgo` for `elapsed` = now minus timestamp, in milliseconds: whole
    minutes, then whole hours, then whole days, each shown only while below
    the next unit; a future timestamp shows 'now'.
  */
  function TimeAgoOf(elapsed: int): (r: TimeAgo)
    ensures r == Now <==> elapsed < MinuteMs
    ensures r.Minutes? <==> MinuteMs <= elapsed < HourMs
    ensures r.Hours? <==> HourMs <= elapsed < DayMs
    ensures r.Days? <==> DayMs <= elapsed < 7 * DayMs
    ensures r == LocaleDate <==> elapsed >= 7 * DayMs
    ensures r.Minutes? ==> r.n * MinuteMs <= elapsed < (r.n + 1) * MinuteMs
    ensures r.Hours? ==> r.n * HourMs <= elapsed < (r.n + 1) * HourMs
    ensures r.Days? ==> r.n * DayMs <= elapsed < (r.n + 1) * DayMs
  {
    var minutes := elapsed / 60000;
    if minutes < 1 then Now
    else if minutes < 60 then Minutes(minutes)
    else
      var hours := minutes / 60;
      if hours < 24 then Hours(hours)
      else
        var days := hours / 24;
        if days < 7 then Days(days) else LocaleDate
  }

  /** The text shown: `${n}m`, `${n}h`, `${n}d` or 'now'; None for the locale date. */
  function TimeAgoText(t: TimeAgo): (r: Option<string>)
    ensures r.None? <==> t == LocaleDate
    ensures t == Now ==> r == Some("now")
    ensures t.Minutes? ==> r == Some(NatToString(t.n) + "m")
    ensures t.Hours? ==> r == Some(NatToString(t.n) + "h")
    ensures t.Days? ==> r == Some(NatToString(t.n) + "d")
  {
    match t
    case Now => Some("now")
    case Minutes(n) => Some(NatToString(n) + "m")
    case Hours(n) => Some(NatToString(n) + "h")
    case Days(n) => Some(NatToString(n) + "d")
    case LocaleDate => None
  }

  // ---- conversations ----

  datatype Participant = Participant(id: string)

  /** A conversation as the server sends it; `participants` may be missing. */
  datatype Conversation = Conversation(id: string, participants: Option<seq<Participant>>)

  /** The JavaScript values `find`'s predicate compares: a participant object, a string, undefined. */
  datatype JsValue = JsUndefined | JsStr(s: string) | JsObject(participantId: string)

  /** `id !== this.userId` where `id` is a participant object and `userId` a string or undefined. */
  predicate NotStrictlyEqual(a: JsValue, b: JsValue) {
    a != b
  }

  function UserIdValue(userId: Option<string>): JsValue {
    match userId
    case None => JsUndefined
    case Some(u) => JsStr(u)
  }

  /** `values.find(p => p !== v)`: the first index whose value is not strictly equal to `v`, or -1. */
  function FindNotEqual(values: seq<JsValue>, v: JsValue): (k: int)
    ensures -1 <= k < |values|
    ensures k == -1 <==> forall j :: 0 <= j < |values| ==> !NotStrictlyEqual(values[j], v)
    ensures k >= 0 ==> NotStrictlyEqual(values[k], v)
    ensures k >= 0 ==> forall j :: 0 <= j < k ==> !NotStrictlyEqual(values[j], v)
  {
    if values == [] then -1
    else if NotStrictlyEqual(values[0], v) then 0
    else
      var k := FindNotEqual(values[1..], v);
      if k == -1 then -1 else k + 1
  }

  /** The participants as the objects `find` walks over. */
  function ParticipantValues(ps: seq<Participant>): (vs: seq<JsValue>)
    ensures |vs| == |ps| && forall j :: 0 <= j < |ps| ==> vs[j] == JsObject(ps[j].id)
  {
    seq(|ps|, j requires 0 <= j < |ps| => JsObject(ps[j].id))
  }

  /** `participants.find(p => p !== userId)`, as an index into the participants. */
  function FindOther(ps: seq<Participant>, userId: Option<string>): (k: int)
    ensures -1 <= k < |ps|
    ensures k == -1 <==> forall j :: 0 <= j < |ps| ==> !NotStrictlyEqual(JsObject(ps[j].id), UserIdValue(userId))
    ensures k >= 0 ==> NotStrictlyEqual(JsObject(ps[k].id), UserIdValue(userId))
    ensures k >= 0 ==> forall j :: 0 <= j < k ==> !NotStrictlyEqual(JsObject(ps[j].id), UserIdValue(userId))
  {
    FindNotEqual(ParticipantValues(ps), UserIdValue(userId))
  }

  const NoParticipants := "TypeError: cannot read properties of undefined"

  /**
    The receiver `onRequestClick` hands to the chat service. Because an object
    is never strictly equal to a string, `find` returns the first participant,
    whoever it is (possibly the signed-in user); no participants is a TypeError.
  */
  function ClickReceiver(conv: Conversation, userId: Option<string>): (r: Result<string, string>)
    ensures r.Ok? <==> conv.participants.Some? && |conv.participants.value| > 0
    ensures r.Ok? ==> r.value == conv.participants.value[0].id
    ensures r.Err? ==> r.error == NoParticipants
  {
    match conv.participants
    case None => Err(NoParticipants)
    case Some(ps) =>
      var k := FindOther(ps, userId);
      if k == -1 then Err(NoParticipants) else Ok(ps[k].id)
  }

  // ---- the page ----

  class InboxPage {
    const chatService: ChatService.Chat
    var searchTerm: string
    var isSelectionMode: bool
    var selectedRequests: set<string>
    var isActionSheetOpen: bool
    var contactRequests: seq<ContactRequest>
    var filteredRequests: seq<ContactRequest>
    var conversations: seq<Conversation>
    /** `undefined` until the stored user has been read. */
    var userId: Option<string>

    ghost predicate Valid()
      reads this
    {
      IdsDistinct(contactRequests)
    }

    /** The page with its five sample requests, stamped relative to `now` (ms). */
    constructor (chatService: ChatService.Chat, now: int)
      ensures Valid() && fresh(contactRequests)
      ensures this.chatService == chatService
      ensures searchTerm == "" && !isSelectionMode && selectedRequests == {} && !isActionSheetOpen
      ensures |contactRequests| == 5 && filteredRequests == [] && conversations == [] && userId == None
      ensures SampleList(contactRequests, now)
      ensures StatusesOf(contactRequests) == [Unread, Read, Replied, Read, Unread]
    {
      var rs := SampleRequests(now);
      SampleIdsDistinct(rs);
      StatusesOfFive(rs);
      this.chatService := chatService;
      searchTerm := "";
      isSelectionMode := false;
      selectedRequests := {};
      isActionSheetOpen := false;
      contactRequests := rs;
      filteredRequests := [];
      conversations := [];
      userId := None;
    }

    /** `ngOnInit`'s synchronous part: show every request. */
    method NgOnInit()
      modifies this
      ensures filteredRequests == contactRequests && contactRequests == old(contactRequests)
      ensures selectedRequests == old(selectedRequests) && isSelectionMode == old(isSelectionMode)
      ensures searchTerm == old(searchTerm) && userId == old(userId)
    {
      filteredRequests := contactRequests;
    }

    /** The `/conversations` response arrives: a present list replaces the old one. */
    method ConversationsLoaded(data: Option<seq<Conversation>>)
      modifies this
      ensures conversations == if data.Some? then data.value else old(conversations)
      ensures contactRequests == old(contactRequests) && filteredRequests == old(filteredRequests)
      ensures selectedRequests == old(selectedRequests) && userId == old(userId)
    {
      if data.Some? {
        conversations := data.value;
      }
    }

    /**
      The stored user arrives: remember its id and announce it on the socket.
      A missing user (`null.id`) throws before anything changes.
    */
    method UserLoaded(user: Option<Json.UserRecord>) returns (r: Result<(), string>)
      modifies this, chatService.socket
      ensures user.None? ==> r.Err? && userId == old(userId)
      ensures user.Some? ==> userId == Some(user.value.id)
      ensures user.Some? && chatService.socket != null ==>
        r.Ok? && chatService.socket.emitted == old(chatService.socket.emitted) + [ChatService.Emission("addUsers", ChatService.UserId(user.value.id))]
      ensures user.Some? && chatService.socket == null ==> r.Err?
      ensures contactRequests == old(contactRequests) && filteredRequests == old(filteredRequests)
      ensures selectedRequests == old(selectedRequests)
    {
      if user.None? {
        r := Err("TypeError: cannot read properties of null");
      } else {
        userId := Some(user.value.id);
        r := chatService.Connect(user.value.id);
      }
    }

    /** `onSearchChange`: the term is lower-cased, then the list is filtered. */
    method OnSearchChange(value: string)
      requires Valid()
      modifies this
      ensures Valid() && searchTerm == ToLower(value)
      ensures filteredRequests == SearchResults(contactRequests, searchTerm)
      ensures contactRequests == old(contactRequests) && selectedRequests == old(selectedRequests)
      ensures isSelectionMode == old(isSelectionMode)
    {
      searchTerm := ToLower(value);
      FilterRequests();
    }

    /** `filterRequests`: a blank term shows a copy of all requests, otherwise only the matches. */
    method FilterRequests()
      requires Valid()
      modifies this
      ensures Valid() && filteredRequests == SearchResults(contactRequests, searchTerm)
      ensures contactRequests == old(contactRequests) && selectedRequests == old(selectedRequests)
      ensures searchTerm == old(searchTerm) && isSelectionMode == old(isSelectionMode)
      ensures isActionSheetOpen == old(isActionSheetOpen)
    {
      if IsBlank(searchTerm) {
        filteredRequests := contactRequests;
      } else {
        filteredRequests := Matching(contactRequests, searchTerm);
      }
    }

    /**
      `onRequestClick`: the receiver becomes the conversation's first
      participant and the route is `/chat/<id>`; without participants it throws.
    */
    method OnRequestClick(conv: Conversation) returns (route: Result<seq<string>, string>)
      modifies chatService
      ensures ClickReceiver(conv, userId).Ok? ==>
        chatService.receiver == ClickReceiver(conv, userId).value && route == Ok(["/chat", conv.id])
      ensures ClickReceiver(conv, userId).Err? ==>
        chatService.receiver == old(chatService.receiver) && route.Err?
      ensures chatService.socket == old(chatService.socket)
    {
      var who := ClickReceiver(conv, userId);
      if who.Err? {
        route := Err(who.error);
      } else {
        chatService.SetRecevier(who.value);
        route := Ok(["/chat", conv.id]);
      }
    }

    /** `onRequestLongPress`: enter selection mode, then toggle the request. */
    method OnRequestLongPress(request: ContactRequest)
      modifies this
      ensures selectedRequests == Toggled(old(selectedRequests), request.id)
      ensures isSelectionMode == (selectedRequests != {})
      ensures contactRequests == old(contactRequests) && filteredRequests == old(filteredRequests)
    {
      isSelectionMode := true;
      ToggleSelection(request.id);
    }

    /** `toggleSelection`: flip the id; an emptied selection leaves selection mode. */
    method ToggleSelection(id: string)
      modifies this
      ensures selectedRequests == Toggled(old(selectedRequests), id)
      ensures isSelectionMode == (old(isSelectionMode) && selectedRequests != {})
      ensures contactRequests == old(contactRequests) && filteredRequests == old(filteredRequests)
      ensures searchTerm == old(searchTerm) && isActionSheetOpen == old(isActionSheetOpen)
    {
      if id in selectedRequests {
        selectedRequests := selectedRequests - {id};
      } else {
        selectedRequests := selectedRequests + {id};
      }
      if |selectedRequests| == 0 {
        isSelectionMode := false;
      }
    }

    /** `selectAll`: clear when the selection is as large as the shown list, else add every shown id. */
    method SelectAll()
      modifies this
      ensures (selectedRequests, isSelectionMode) == SelectedAll(old(selectedRequests), old(isSelectionMode), filteredRequests)
      ensures contactRequests == old(contactRequests) && filteredRequests == old(filteredRequests)
      ensures searchTerm == old(searchTerm) && isActionSheetOpen == old(isActionSheetOpen)
    {
      if |selectedRequests| == |filteredRequests| {
        selectedRequests := {};
        isSelectionMode := false;
      } else {
        selectedRequests := AddIds(selectedRequests, filteredRequests);
      }
    }

    /** `openRequestDetails`: the request is marked read in place. */
    method OpenRequestDetails(request: ContactRequest)
      modifies request
      ensures request.status == Read
    {
      request.status := Read;
    }

    method OpenActionSheet()
      modifies this
      ensures isActionSheetOpen
      ensures selectedRequests == old(selectedRequests) && isSelectionMode == old(isSelectionMode)
      ensures contactRequests == old(contactRequests) && filteredRequests == old(filteredRequests)
    {
      isActionSheetOpen := true;
    }

    method CloseActionSheet()
      modifies this
      ensures !isActionSheetOpen
      ensures selectedRequests == old(selectedRequests) && isSelectionMode == old(isSelectionMode)
      ensures contactRequests == old(contactRequests) && filteredRequests == old(filteredRequests)
      ensures searchTerm == old(searchTerm)
    {
      isActionSheetOpen := false;
    }

    /** `exitSelectionMode`: mode off, selection empty. */
    method ExitSelectionMode()
      modifies this
      ensures !isSelectionMode && selectedRequests == {}
      ensures isActionSheetOpen == old(isActionSheetOpen) && searchTerm == old(searchTerm)
      ensures contactRequests == old(contactRequests) && filteredRequests == old(filteredRequests)
    {
      isSelectionMode := false;
      selectedRequests := {};
    }

    /**
      The `forEach` over the selection in `markAsRead`/`markAsUnread`: each
      selected id's request (the first with that id) gets `st`.
    */
    method SetSelectedStatus(st: Status)
      requires Valid()
      modifies contactRequests
      ensures StatusesOf(contactRequests) == Marked(contactRequests, old(StatusesOf(contactRequests)), selectedRequests, st)
    {
      SetStatuses(contactRequests, selectedRequests, st);
    }

    /** `markAsRead`: the selected requests become read; selection and sheet close. */
    method MarkAsRead()
      requires Valid()
      modifies this, contactRequests
      ensures Valid() && contactRequests == old(contactRequests) && filteredRequests == old(filteredRequests)
      ensures StatusesOf(contactRequests) == Marked(contactRequests, old(StatusesOf(contactRequests)), old(selectedRequests), Read)
      ensures selectedRequests == {} && !isSelectionMode && !isActionSheetOpen
    {
      SetSelectedStatus(Read);
      ExitSelectionMode();
      CloseActionSheet();
    }

    /** `markAsUnread`: the selected requests become unread; selection and sheet close. */
    method MarkAsUnread()
      requires Valid()
      modifies this, contactRequests
      ensures Valid() && contactRequests == old(contactRequests) && filteredRequests == old(filteredRequests)
      ensures StatusesOf(contactRequests) == Marked(contactRequests, old(StatusesOf(contactRequests)), old(selectedRequests), Unread)
      ensures selectedRequests == {} && !isSelectionMode && !isActionSheetOpen
    {
      SetSelectedStatus(Unread);
      ExitSelectionMode();
      CloseActionSheet();
    }

    /**
      `deleteSelected`: the selected requests leave the list (the rest keep
      their order), the shown list is recomputed, selection and sheet close.
    */
    method DeleteSelected()
      requires Valid()
      modifies this
      ensures Valid() && contactRequests == Without(old(contactRequests), old(selectedRequests))
      ensures filteredRequests == SearchResults(contactRequests, searchTerm)
      ensures selectedRequests == {} && !isSelectionMode && !isActionSheetOpen
      ensures searchTerm == old(searchTerm)
    {
      var rs := RemoveSelected(contactRequests, selectedRequests);
      contactRequests := rs;
      FilterRequests();
      ExitSelectionMode();
      CloseActionSheet();
    }

    /** `getUnreadCount`: how many requests are unread; zero exactly when none is. */
    function UnreadCount(): (n: nat)
      reads this, contactRequests
      ensures n == multiset(StatusesOf(contactRequests))[Unread]
      ensures n <= |contactRequests|
      ensures n == 0 <==> forall i :: 0 <= i < |contactRequests| ==> contactRequests[i].status != Unread
    {
      var s := StatusesOf(contactRequests);
      assert (exists i :: 0 <= i < |s| && s[i] == Unread) <==> Unread in s;
      CountUnread(s)
    }
  }

  /** For each id in `sel`, the first request with that id gets status `st`. */
  method SetStatuses(rs: seq<ContactRequest>, sel: set<string>, st: Status)
    requires IdsDistinct(rs)
    modifies rs
    ensures StatusesOf(rs) == Marked(rs, old(StatusesOf(rs)), sel, st)
  {
    ghost var before := StatusesOf(rs);
    var todo := sel;
    ghost var done: set<string> := {};
    while todo != {}
      invariant todo + done == sel && todo !! done
      invariant forall i :: 0 <= i < |rs| ==> rs[i].status == if rs[i].id in done then st else before[i]
      decreases |todo|
    {
      var id :| id in todo;
      var k := FindById(rs, id);
      if k > -1 {
        SetStatusAt(rs, k, st);
      }
      todo := todo - {id};
      done := done + {id};
    }
    MarkedPointwise(rs, before, StatusesOf(rs), sel, st);
  }

  /** `rs[k].status = st`: with distinct ids no other request is the same object. */
  method SetStatusAt(rs: seq<ContactRequest>, k: nat, st: Status)
    requires k < |rs| && IdsDistinct(rs)
    modifies rs[k]
    ensures rs[k].status == st
    ensures forall i :: 0 <= i < |rs| && i != k ==> rs[i].status == old(rs[i].status)
  {
    rs[k].status := st;
  }

  /** The loop of `deleteSelected`: for each selected id, splice out the request found with it. */
  method RemoveSelected(rs: seq<ContactRequest>, sel: set<string>) returns (out: seq<ContactRequest>)
    requires IdsDistinct(rs)
    ensures out == Without(rs, sel) && IdsDistinct(out)
  {
    out := rs;
    var todo := sel;
    ghost var done: set<string> := {};
    assert Without(rs, {}) == rs by { WithoutNone(rs); }
    while todo != {}
      invariant todo + done == sel && todo !! done
      invariant out == Without(rs, done)
      decreases |todo|
    {
      var id :| id in todo;
      SpliceFound(rs, done, id);
      assert todo - {id} + (done + {id}) == sel;
      var index := FindById(out, id);
      if index > -1 {
        out := out[..index] + out[index + 1..];
      }
      todo := todo - {id};
      done := done + {id};
    }
    WithoutDistinct(rs, sel);
  }

  lemma {:induction false} WithoutNone(rs: seq<ContactRequest>)
    ensures Without(rs, {}) == rs
    decreases |rs|
  {
    if rs != [] {
      WithoutNone(rs[1..]);
      assert rs == [rs[0]] + rs[1..];
    }
  }

  /** Leaving requests out keeps the ids distinct. */
  lemma WithoutDistinct(rs: seq<ContactRequest>, ids: set<string>)
    requires IdsDistinct(rs)
    ensures IdsDistinct(Without(rs, ids))
  {
    var out := Without(rs, ids);
    SubsequenceDistinctIds(out, rs);
  }

  lemma {:induction false} SubsequenceDistinctIds(a: seq<ContactRequest>, b: seq<ContactRequest>)
    requires IsSubsequence(a, b) && IdsDistinct(b)
    ensures IdsDistinct(a)
    decreases |b|
  {
    if a != [] {
      var t := b[1..];
      assert IdsDistinct(t) by {
        forall i, j | 0 <= i < j < |t| ensures t[i].id != t[j].id {
          assert t[i] == b[i + 1] && t[j] == b[j + 1];
        }
      }
      if a[0] == b[0] && IsSubsequence(a[1..], t) {
        SubsequenceDistinctIds(a[1..], t);
        SubsequenceMembers(a[1..], t);
        forall i, j | 0 <= i < j < |a| ensures a[i].id != a[j].id {
          if i == 0 {
            assert a[j] == a[1..][j - 1];
            assert a[j] in t;
            var m :| 0 <= m < |t| && t[m] == a[j];
            assert b[m + 1] == a[j];
          } else {
            assert a[i] == a[1..][i - 1] && a[j] == a[1..][j - 1];
          }
        }
      } else {
        SubsequenceDistinctIds(a, t);
      }
    }
  }
}
