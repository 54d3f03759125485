/** The message routes: customer conversations (threads) fed by inbound
    e-mail through a webhook and answered by the admin. A thread's id
    travels in the reply's subject as a `[#THREAD-<id>]` tag, and an inbound
    mail whose subject carries that tag is appended to the thread it names. */
module MessageRoutes {
  import opened Common
  import opened Seqs
  import opened Text
  import opened Sorting

  /** A row of message_threads; the admin last viewed it at
      `adminLastViewedAt`, if ever. */
  datatype Thread = Thread(id: nat, subject: string, customerName: string, customerEmail: string,
                           status: string, lastMessageAt: int, adminLastViewedAt: Option<int>)

  /** A row of thread_messages; `senderType` is `customer` or `admin`. */
  datatype ThreadMessage = ThreadMessage(id: nat, threadId: nat, senderType: string, senderName: string,
                                         senderEmail: string, message: string, hasAttachments: bool,
                                         createdAt: int)

  // ---------------------------------------------------------------------
  // The thread tag
  // ---------------------------------------------------------------------

  const TagOpen: string := "[#THREAD-"

  /** `[#THREAD-<id>]`. */
  function ThreadTagText(id: nat): string {
    TagOpen + NatToString(id) + "]"
  }

  /** The subject of the admin's reply mail: `Re: <subject> [#THREAD-<id>]`. */
  function ReplySubject(subject: string, id: nat): string {
    "Re: " + subject + " " + ThreadTagText(id)
  }

  /** `/\[#THREAD-(\d+)\]/` anchored at the start of r: the tag opener, a
      non-empty run of digits and `]`, read as the number the digits spell. */
  function TagStart(r: string): Option<nat> {
    if !StartsWith(r, TagOpen) then None
    else
      var body := r[|TagOpen|..];
      var k := DigitRun(body);
      if 0 < k < |body| && body[k] == ']' then Some(DigitsValue(body[..k])) else None
  }

  /** No position of s starts a tag. */
  predicate Untagged(s: string) {
    forall i :: 0 <= i <= |s| ==> TagStart(s[i..]).None?
  }

  /** The leftmost tag in s at or after `from`. */
  function FindTag(s: string, from: nat): Option<nat>
    requires from <= |s|
    decreases |s| - from
  {
    if TagStart(s[from..]).Some? then TagStart(s[from..])
    else if from == |s| then None
    else FindTag(s, from + 1)
  }

  /** `subject?.match(...)`: the id in the subject's first tag; no subject, no tag. */
  function ThreadTag(subject: Option<string>): Option<nat> {
    if subject.None? then None else FindTag(subject.value, 0)
  }

  /** The tag written for an id is read back as that id, whatever follows it. */
  lemma TagStartOfTag(id: nat, rest: string)
    ensures TagStart(ThreadTagText(id) + rest) == Some(id)
  {
    var d := NatToString(id);
    var r := ThreadTagText(id) + rest;
    assert r == TagOpen + (d + ("]" + rest));
    assert r[..|TagOpen|] == TagOpen;
    var body := r[|TagOpen|..];
    assert body == d + ("]" + rest);
    DigitRunOfDigits(d, "]" + rest);
    assert body[|d|] == ']';
    assert body[..|d|] == d;
    NatToStringRoundTrip(id);
  }

  /** A tag cannot run across a space: text after a space does not change
      whether, and which, tag starts a string. */
  lemma TagStartBeforeSpace(x: string, y: string)
    requires y != [] && y[0] == ' '
    ensures TagStart(x + y) == TagStart(x)
  {
    var n := |TagOpen|;
    if |x| < n {
      assert (x + y)[|x|] == ' ' != TagOpen[|x|];
      assert !StartsWith(x + y, TagOpen);
    } else {
      assert (x + y)[..n] == x[..n];
      if StartsWith(x, TagOpen) {
        var bx := x[n..];
        var bxy := (x + y)[n..];
        assert bxy == bx + y;
        DigitRunAppend(bx, y);
        var k := DigitRun(bx);
        if k < |bx| {
          assert bxy[k] == bx[k];
          assert bxy[..k] == bx[..k];
        } else {
          assert bxy[k] == ' ';
        }
      }
    }
  }

  /** The search returns the tag at the first position that starts one. */
  lemma {:induction false} FindTagFirst(s: string, from: nat, i: nat)
    requires from <= i <= |s|
    requires TagStart(s[i..]).Some?
    requires forall j :: from <= j < i ==> TagStart(s[j..]).None?
    ensures FindTag(s, from) == TagStart(s[i..])
    decreases i - from
  {
    if from < i {
      FindTagFirst(s, from + 1, i);
    }
  }

  /** The search finds nothing exactly when no position from `from` on
      starts a tag. */
  lemma {:induction false} FindTagNone(s: string, from: nat)
    requires from <= |s|
    ensures FindTag(s, from).None? <==> forall i :: from <= i <= |s| ==> TagStart(s[i..]).None?
    decreases |s| - from
  {
    if TagStart(s[from..]).None? && from < |s| {
      assert FindTag(s, from) == FindTag(s, from + 1);
      FindTagNone(s, from + 1);
    }
  }

  /** What the search finds is the tag at some position with no tag
      before it. */
  lemma {:induction false} FindTagSome(s: string, from: nat) returns (i: nat)
    requires from <= |s|
    requires FindTag(s, from).Some?
    ensures from <= i <= |s| && TagStart(s[i..]) == FindTag(s, from)
    ensures forall j :: from <= j < i ==> TagStart(s[j..]).None?
    decreases |s| - from
  {
    if TagStart(s[from..]).Some? {
      i := from;
    } else {
      assert FindTag(s, from) == FindTag(s, from + 1);
      var none := TagStart(s[from..]).None?;
      i := FindTagSome(s, from + 1);
      forall j | from <= j < i ensures TagStart(s[j..]).None? {
        if j == from {
          assert none;
        }
      }
    }
  }

  /** A subject has a tag exactly when some position starts one. */
  lemma ThreadTagNone(s: string)
    ensures ThreadTag(Some(s)).None? <==> Untagged(s)
  {
    FindTagNone(s, 0);
  }

  /** A tag starts with `[`. */
  lemma TagStartNeedsBracket(r: string)
    requires r != [] && r[0] != '['
    ensures TagStart(r).None?
  {
    assert TagOpen[0] == '[';
  }

  /** No tag starts at position i before the tag of a reply subject whose
      subject has none of its own. */
  lemma ReplyPositionUntagged(subject: string, id: nat, i: nat)
    requires Untagged(subject)
    requires i <= 4 + |subject|
    ensures TagStart(ReplySubject(subject, id)[i..]).None?
  {
    var rest := " " + ThreadTagText(id);
    var full := ReplySubject(subject, id);
    assert full == "Re: " + subject + rest;
    if i < 4 || i == 4 + |subject| {
      assert full[i..][0] == full[i];
      TagStartNeedsBracket(full[i..]);
    } else {
      assert full[i..] == subject[i - 4..] + rest;
      TagStartBeforeSpace(subject[i - 4..], rest);
    }
  }

  /** No tag starts before the tag of a reply subject whose subject has
      none of its own. */
  lemma ReplyPrefixUntagged(subject: string, id: nat)
    requires Untagged(subject)
    ensures forall i :: 0 <= i <= 4 + |subject| ==> TagStart(ReplySubject(subject, id)[i..]).None?
  {
    forall i | 0 <= i <= 4 + |subject| ensures TagStart(ReplySubject(subject, id)[i..]).None? {
      ReplyPositionUntagged(subject, id, i);
    }
  }

  /** The round trip of a conversation: the reply to a thread whose subject
      has no tag of its own is routed back to that thread. */
  lemma ReplySubjectRoundTrip(subject: string, id: nat)
    requires Untagged(subject)
    ensures ThreadTag(Some(ReplySubject(subject, id))) == Some(id)
  {
    var full := ReplySubject(subject, id);
    var p := 4 + |subject|;
    ReplyPrefixUntagged(subject, id);
    assert full[p + 1..] == ThreadTagText(id) + "";
    TagStartOfTag(id, "");
    FindTagFirst(full, 0, p + 1);
  }

  /** Text without `[` holds no tag. */
  lemma NoBracketUntagged(s: string)
    requires forall k :: 0 <= k < |s| ==> s[k] != '['
    ensures Untagged(s)
  {
    forall i | 0 <= i <= |s|
      ensures TagStart(s[i..]).None?
    {
      if i < |s| {
        assert s[i..][0] == s[i];
      }
    }
  }

  const NoSubject: string := "Message sans sujet"

  /** The subject a new thread gets from an untagged inbound mail
      (`subject || 'Message sans sujet'`) has no tag. */
  lemma NewThreadSubjectUntagged(subject: Option<string>)
    requires ThreadTag(subject).None?
    ensures Untagged(OrElse(subject, NoSubject))
  {
    if Truthy(subject) {
      ThreadTagNone(subject.value);
    } else {
      NoBracketUntagged(NoSubject);
    }
  }

  // ---------------------------------------------------------------------
  // The sender of an inbound mail
  // ---------------------------------------------------------------------

  /** The characters `.` does not match in a JavaScript regular expression. */
  predicate IsLineTerminator(c: char) {
    c == '\n' || c == '\r' || c == '\U{2028}' || c == '\U{2029}'
  }

  /** The lazy `.+?>` continued from position j: the first `>` at or after j,
      unless a line terminator comes first. */
  function CloseAngle(s: string, j: nat): (r: Option<nat>)
    requires j <= |s|
    ensures r.Some? ==> j <= r.value < |s| && s[r.value] == '>'
                        && forall k :: j <= k < r.value ==> s[k] != '>' && !IsLineTerminator(s[k])
    decreases |s| - j
  {
    if j == |s| then None
    else if s[j] == '>' then Some(j)
    else if IsLineTerminator(s[j]) then None
    else CloseAngle(s, j + 1)
  }

  /** `/<(.+?)>/` anchored at i: the position of the closing `>`. The first
      character inside may be anything but a line terminator, `>` included. */
  function AngleAt(s: string, i: nat): (r: Option<nat>)
    requires i < |s|
    ensures r.Some? ==> i + 2 <= r.value < |s| && s[i] == '<' && s[r.value] == '>'
  {
    if s[i] == '<' && i + 1 < |s| && !IsLineTerminator(s[i + 1]) then CloseAngle(s, i + 2) else None
  }

  /** The leftmost match of `/<(.+?)>/` at or after `from`: the positions of
      its `<` and `>`. */
  function FirstAngle(s: string, from: nat): (r: Option<(nat, nat)>)
    requires from <= |s|
    ensures r.Some? ==> from <= r.value.0 && r.value.0 + 2 <= r.value.1 < |s|
                        && AngleAt(s, r.value.0) == Some(r.value.1)
    decreases |s| - from
  {
    if from == |s| then None
    else if AngleAt(s, from).Some? then Some((from, AngleAt(s, from).value))
    else FirstAngle(s, from + 1)
  }

  /** `(from.match(/<(.+?)>/) || [null, from])[1] || from`: the text between
      the first angle brackets, or the whole field. */
  function SenderEmail(from: string): string {
    match FirstAngle(from, 0)
    case None => from
    case Some(m) => from[m.0 + 1..m.1]
  }

  /** `from.replace(/<.+?>/, '').trim()`: the field without its first
      bracketed part, trimmed. */
  function SenderName(from: string): string {
    match FirstAngle(from, 0)
    case None => Trim(from)
    case Some(m) => Trim(from[..m.0] + from[m.1 + 1..])
  }

  /** `name || fallback`. */
  function NameOr(name: string, fallback: string): (r: string)
    ensures r == OrElse(Some(name), fallback)
  {
    if name == "" then fallback else name
  }

  lemma {:induction false} CloseAngleAt(s: string, j: nat, m: nat)
    requires j <= m < |s| && s[m] == '>'
    requires forall k :: j <= k < m ==> s[k] != '>' && !IsLineTerminator(s[k])
    ensures CloseAngle(s, j) == Some(m)
    decreases m - j
  {
    if j < m {
      CloseAngleAt(s, j + 1, m);
    }
  }

  lemma {:induction false} FirstAngleAt(s: string, from: nat, i: nat)
    requires from <= i < |s| && AngleAt(s, i).Some?
    requires forall k :: from <= k < i ==> s[k] != '<'
    ensures FirstAngle(s, from) == Some((i, AngleAt(s, i).value))
    decreases i - from
  {
    if from < i {
      FirstAngleAt(s, from + 1, i);
    }
  }

  lemma {:induction false} FirstAngleNone(s: string, from: nat)
    requires from <= |s|
    requires forall k :: from <= k < |s| ==> s[k] != '<'
    ensures FirstAngle(s, from).None?
    decreases |s| - from
  {
    if from < |s| {
      FirstAngleNone(s, from + 1);
    }
  }

  /** `Name <address>`: the address is what is inside the brackets and the
      name what is around them, trimmed. */
  lemma SenderOfNamedAddress(name: string, address: string, rest: string)
    requires forall k :: 0 <= k < |name| ==> name[k] != '<'
    requires address != [] && !IsLineTerminator(address[0])
    requires forall k :: 1 <= k < |address| ==> address[k] != '>' && !IsLineTerminator(address[k])
    ensures SenderEmail(name + "<" + address + ">" + rest) == address
    ensures SenderName(name + "<" + address + ">" + rest) == Trim(name + rest)
  {
    var s := name + "<" + address + ">" + rest;
    var i := |name|;
    var m := i + 1 + |address|;
    assert s[i] == '<' && s[i + 1] == address[0] && s[m] == '>';
    forall k | i + 2 <= k < m
      ensures s[k] != '>' && !IsLineTerminator(s[k])
    {
      assert s[k] == address[k - i - 1];
    }
    CloseAngleAt(s, i + 2, m);
    FirstAngleAt(s, 0, i);
    assert s[i + 1..m] == address;
    assert s[..i] + s[m + 1..] == name + rest;
  }

  /** A bare address is both the e-mail and, trimmed, the name. */
  lemma SenderOfBareAddress(from: string)
    requires forall k :: 0 <= k < |from| ==> from[k] != '<'
    ensures SenderEmail(from) == from && SenderName(from) == Trim(from)
  {
    FirstAngleNone(from, 0);
  }

  /** `text || html || ''`: the stored body of an inbound mail. */
  function InboundBody(text: Option<string>, html: Option<string>): (r: string)
    ensures Truthy(text) ==> r == text.value
    ensures !Truthy(text) && Truthy(html) ==> r == html.value
    ensures !Truthy(text) && !Truthy(html) ==> r == ""
  {
    OrElse(text, OrElse(html, ""))
  }

  // ---------------------------------------------------------------------
  // Thread updates and unread counts
  // ---------------------------------------------------------------------

  /** The UPDATEs the routes run on message_threads. */
  datatype ThreadUpdate =
    | Reopen(at: int)     // a customer mail arrived
    | Answered(at: int)   // the admin replied
    | Viewed(at: int)     // the admin opened the thread
    | SetStatus(status: string)

  function Apply(t: Thread, u: ThreadUpdate): Thread {
    match u
    case Reopen(at) => t.(lastMessageAt := at, status := "open")
    case Answered(at) => t.(lastMessageAt := at, status := "open", adminLastViewedAt := Some(at))
    case Viewed(at) => t.(adminLastViewedAt := Some(at))
    case SetStatus(status) => t.(status := status)
  }

  /** `UPDATE message_threads SET ... WHERE id = ?`: the rows with that id
      change, every other row stays. */
  function Updated(threads: seq<Thread>, id: int, u: ThreadUpdate): (r: seq<Thread>)
    ensures |r| == |threads|
    ensures forall i :: 0 <= i < |r| ==> r[i] == if threads[i].id == id then Apply(threads[i], u) else threads[i]
  {
    seq(|threads|, i requires 0 <= i < |threads| =>
      if threads[i].id == id then Apply(threads[i], u) else threads[i])
  }

  /** No update changes a thread's id, subject or customer. */
  lemma UpdatedKeepsIdentity(threads: seq<Thread>, id: int, u: ThreadUpdate)
    ensures forall i :: 0 <= i < |threads| ==>
              var t := Updated(threads, id, u)[i];
              t.id == threads[i].id && t.subject == threads[i].subject
              && t.customerName == threads[i].customerName && t.customerEmail == threads[i].customerEmail
  {
  }

  /** A customer message of thread t counts as unread when the admin never
      viewed t or it was created after the last view (the COALESCE to the
      epoch lets every message of a never-viewed thread through). */
  predicate IsUnread(t: Thread, m: ThreadMessage) {
    m.threadId == t.id && m.senderType == "customer"
    && (t.adminLastViewedAt.None? || m.createdAt > t.adminLastViewedAt.value)
  }

  function UnreadIn(t: Thread): ThreadMessage -> bool {
    (m: ThreadMessage) => IsUnread(t, m)
  }

  /** The unread_count column of the thread list. */
  function UnreadCount(t: Thread, messages: seq<ThreadMessage>): nat {
    |Filter(messages, UnreadIn(t))|
  }

  /** Viewing a thread after its last message leaves nothing unread. */
  lemma ViewingClearsUnread(t: Thread, messages: seq<ThreadMessage>, now: int)
    requires forall k :: 0 <= k < |messages| ==> messages[k].createdAt <= now
    ensures UnreadCount(t.(adminLastViewedAt := Some(now)), messages) == 0
  {
    FilterNone(messages, UnreadIn(t.(adminLastViewedAt := Some(now))));
  }

  /** Replying counts as viewing: once the reply is stored nothing is unread. */
  lemma AnsweringClearsUnread(t: Thread, messages: seq<ThreadMessage>, now: int)
    requires forall k :: 0 <= k < |messages| ==> messages[k].createdAt <= now
    ensures UnreadCount(Apply(t, Answered(now)), messages) == 0
  {
    ViewingClearsUnread(t, messages, now);
    FilterExt(messages, UnreadIn(Apply(t, Answered(now))), UnreadIn(t.(adminLastViewedAt := Some(now))));
  }

  /** A new customer message after the last view adds one to the count; any
      other message leaves the count as it was. */
  lemma NewMessageUnread(t: Thread, messages: seq<ThreadMessage>, m: ThreadMessage)
    ensures UnreadCount(t, messages + [m]) == UnreadCount(t, messages) + (if IsUnread(t, m) then 1 else 0)
  {
    FilterAppend(messages, [m], UnreadIn(t));
    assert [m][1..] == [];
  }

  /** One line of the thread list. */
  datatype ThreadSummary = ThreadSummary(thread: Thread, unreadCount: nat)

  function Summaries(threads: seq<Thread>, messages: seq<ThreadMessage>): (r: seq<ThreadSummary>)
    ensures |r| == |threads|
    ensures forall i :: 0 <= i < |r| ==> r[i] == ThreadSummary(threads[i], UnreadCount(threads[i], messages))
  {
    seq(|threads|, i requires 0 <= i < |threads| => ThreadSummary(threads[i], UnreadCount(threads[i], messages)))
  }

  function LatestFirst(t: Thread): int {
    -t.lastMessageAt
  }

  function Oldest(m: ThreadMessage): int {
    m.createdAt
  }

  function InThread(id: int): ThreadMessage -> bool {
    (m: ThreadMessage) => m.threadId == id
  }

  function NotThread(id: int): Thread -> bool {
    (t: Thread) => t.id != id
  }

  function HasId(id: int): Thread -> bool {
    (t: Thread) => t.id == id
  }

  predicate ThreadsValid(threads: seq<Thread>, next: nat) {
    (forall i :: 0 <= i < |threads| ==> threads[i].id < next && Untagged(threads[i].subject))
    && (forall i, j :: 0 <= i < j < |threads| ==> threads[i].id < threads[j].id)
  }

  predicate MessagesValid(messages: seq<ThreadMessage>, next: nat) {
    (forall i :: 0 <= i < |messages| ==> messages[i].id < next)
    && (forall i, j :: 0 <= i < j < |messages| ==> messages[i].id < messages[j].id)
  }

  /** A message stored under the counter keeps the ids increasing. */
  lemma AppendMessageValid(messages: seq<ThreadMessage>, next: nat, m: ThreadMessage)
    requires MessagesValid(messages, next) && m.id == next
    ensures MessagesValid(messages + [m], next + 1)
  {
  }

  /** A thread opened under the counter with an untagged subject keeps the
      table valid. */
  lemma AppendThreadValid(threads: seq<Thread>, next: nat, t: Thread)
    requires ThreadsValid(threads, next) && t.id == next && Untagged(t.subject)
    ensures ThreadsValid(threads + [t], next + 1)
  {
    assert forall i :: 0 <= i < |threads| ==> (threads + [t])[i] == threads[i];
  }

  /** Updates keep the table valid. */
  lemma UpdatedValid(threads: seq<Thread>, next: nat, id: int, u: ThreadUpdate)
    requires ThreadsValid(threads, next)
    ensures ThreadsValid(Updated(threads, id, u), next)
  {
    UpdatedKeepsIdentity(threads, id, u);
  }

  /** The status route accepts only these two. */
  predicate KnownStatus(status: Option<string>) {
    status == Some("open") || status == Some("closed")
  }

  /** The reply mail: recipient, subject (carrying the thread tag) and the
      address answers should go to. */
  datatype ReplyMail = ReplyMail(to: string, subject: string, replyTo: string)

  const DefaultAdminName: string := "Le ptit bout de bois"
  const DefaultContactEmail: string := "contact@lepetitboutdebois.fr"

  /** The message_threads and thread_messages tables with their id counters. */
  class MessageStore {
    var threads: seq<Thread>
    var messages: seq<ThreadMessage>
    var nextThreadId: nat
    var nextMessageId: nat

    /** Ids are increasing and below their counters; threads, all opened by
        the webhook, have untagged subjects. */
    predicate Valid()
      reads this
    {
      ThreadsValid(threads, nextThreadId) && MessagesValid(messages, nextMessageId)
    }

    constructor()
      ensures Valid() && threads == [] && messages == [] && nextThreadId == 1 && nextMessageId == 1
    {
      threads := [];
      messages := [];
      nextThreadId := 1;
      nextMessageId := 1;
    }

    /** `GET /threads`: every thread with its unread count, most recent
        activity first. */
    method ListThreads(session: Session) returns (r: Result<seq<ThreadSummary>>)
      ensures !IsAdmin(session) ==> r == Err(Unauthorized)
      ensures IsAdmin(session) ==> r.Ok? && |r.value| == |threads|
      ensures IsAdmin(session) ==>
                exists sorted :: multiset(sorted) == multiset(threads)
                                 && SortedBy(sorted, LatestFirst)
                                 && r.value == Summaries(sorted, messages)
    {
      if !IsAdmin(session) {
        return Err(Unauthorized);
      }
      var sorted := SortBy(threads, LatestFirst);
      r := Ok(Summaries(sorted, messages));
    }

    /** `GET /threads/:id/messages`: the thread's messages, oldest first;
        an unknown id gives an empty list. */
    method ThreadMessages(session: Session, id: int) returns (r: Result<seq<ThreadMessage>>)
      ensures !IsAdmin(session) ==> r == Err(Unauthorized)
      ensures IsAdmin(session) ==>
                r.Ok? && multiset(r.value) == multiset(Filter(messages, InThread(id)))
                && SortedBy(r.value, Oldest)
    {
      if !IsAdmin(session) {
        return Err(Unauthorized);
      }
      r := Ok(SortBy(Filter(messages, InThread(id)), Oldest));
    }

    /** `POST /threads/:id/mark-read`: the view time is set on whatever row
        has that id. */
    method MarkRead(session: Session, id: int, now: int) returns (r: Result<()>)
      requires Valid()
      modifies this`threads
      ensures Valid()
      ensures !IsAdmin(session) ==> r == Err(Unauthorized) && threads == old(threads)
      ensures IsAdmin(session) ==> r == Ok(()) && threads == Updated(old(threads), id, Viewed(now))
    {
      if !IsAdmin(session) {
        return Err(Unauthorized);
      }
      UpdatedValid(threads, nextThreadId, id, Viewed(now));
      threads := Updated(threads, id, Viewed(now));
      r := Ok(());
    }

    /** `POST /threads/:id/reply`: 400 for a missing or blank message, 404
        for an unknown thread; otherwise the trimmed message is stored as
        the admin's, the thread is reopened and marked viewed, and, when
        mail is configured, a reply whose subject carries the thread tag
        goes to the customer. The answer carries the new message's id. */
    method Reply(session: Session, id: int, message: Option<string>, attachmentCount: nat,
                 adminName: Option<string>, contactEmail: Option<string>, mailConfigured: bool, now: int)
      returns (r: Result<nat>, mail: Option<ReplyMail>)
      requires Valid()
      modifies this`threads, this`messages, this`nextMessageId
      ensures Valid()
      ensures !IsAdmin(session) ==> r == Err(Unauthorized)
      ensures IsAdmin(session) && (!Truthy(message) || Trim(message.value) == "") ==> r == Err(BadRequest)
      ensures r.Err? ==> mail.None? && threads == old(threads) && messages == old(messages)
                         && nextMessageId == old(nextMessageId)
      ensures r == Err(NotFound) <==>
                IsAdmin(session) && Truthy(message) && Trim(message.value) != ""
                && FindIndex(old(threads), HasId(id)) < 0
      ensures r.Ok? ==>
                var k := FindIndex(old(threads), HasId(id));
                var t := old(threads)[k];
                IsAdmin(session) && Truthy(message) && Trim(message.value) != "" && 0 <= k
                && r.value == old(nextMessageId)
                && messages == old(messages) + [ThreadMessage(old(nextMessageId), t.id, "admin",
                                                OrElse(adminName, DefaultAdminName),
                                                OrElse(contactEmail, DefaultContactEmail),
                                                Trim(message.value), attachmentCount > 0, now)]
                && nextMessageId == old(nextMessageId) + 1
                && threads == Updated(old(threads), id, Answered(now))
                && (mail.Some? <==> mailConfigured)
                && (mail.Some? ==> mail.value == ReplyMail(t.customerEmail, ReplySubject(t.subject, t.id),
                                                           OrElse(contactEmail, DefaultContactEmail))
                                   && ThreadTag(Some(mail.value.subject)) == Some(t.id))
    {
      mail := None;
      if !IsAdmin(session) {
        return Err(Unauthorized), None;
      }
      if !Truthy(message) || Trim(message.value) == "" {
        return Err(BadRequest), None;
      }
      var k := FindIndex(threads, HasId(id));
      if k < 0 {
        return Err(NotFound), None;
      }
      var t := threads[k];
      var messageId := nextMessageId;
      var sender := OrElse(contactEmail, DefaultContactEmail);
      var stored := ThreadMessage(messageId, t.id, "admin", OrElse(adminName, DefaultAdminName),
                                  sender, Trim(message.value), attachmentCount > 0, now);
      AppendMessageValid(messages, messageId, stored);
      messages := messages + [stored];
      nextMessageId := messageId + 1;
      UpdatedValid(threads, nextThreadId, id, Answered(now));
      threads := Updated(threads, id, Answered(now));
      if mailConfigured {
        ReplySubjectRoundTrip(t.subject, t.id);
        mail := Some(ReplyMail(t.customerEmail, ReplySubject(t.subject, t.id), sender));
      }
      r := Ok(messageId);
    }

    /** `POST /webhook/inbound`: a mail whose subject has no tag opens a new
        open thread holding it; a tagged mail is appended to the thread the
        tag names and reopens it, or gets 404 when there is no such thread.
        A missing sender field fails with 500 before anything is stored. */
    method Inbound(from: Option<string>, subject: Option<string>, html: Option<string>,
                   text: Option<string>, now: int)
      returns (r: Result<bool>)
      requires Valid()
      modifies this
      ensures Valid()
      ensures r.Err? ==> threads == old(threads) && messages == old(messages)
                         && nextThreadId == old(nextThreadId) && nextMessageId == old(nextMessageId)
      ensures ThreadTag(subject).None? && from.None? ==> r == Err(ServerError)
      ensures ThreadTag(subject).None? && from.Some? ==>
                var email := SenderEmail(from.value);
                var name := NameOr(SenderName(from.value), email);
                r == Ok(true)
                && threads == old(threads) + [Thread(old(nextThreadId), OrElse(subject, NoSubject), name, email,
                                                     "open", now, None)]
                && messages == old(messages) + [ThreadMessage(old(nextMessageId), old(nextThreadId), "customer",
                                                              name, email, InboundBody(text, html), false, now)]
                && nextThreadId == old(nextThreadId) + 1 && nextMessageId == old(nextMessageId) + 1
      ensures ThreadTag(subject).Some? && FindIndex(old(threads), HasId(ThreadTag(subject).value)) < 0 ==>
                r == Err(NotFound)
      ensures ThreadTag(subject).Some? && FindIndex(old(threads), HasId(ThreadTag(subject).value)) >= 0 ==>
                var id := ThreadTag(subject).value;
                var t := old(threads)[FindIndex(old(threads), HasId(id))];
                (from.None? ==> r == Err(ServerError))
                && (from.Some? ==>
                      r == Ok(false)
                      && messages == old(messages) + [ThreadMessage(old(nextMessageId), id, "customer",
                                                                    NameOr(SenderName(from.value), t.customerName),
                                                                    SenderEmail(from.value), InboundBody(text, html),
                                                                    false, now)]
                      && threads == Updated(old(threads), id, Reopen(now))
                      && nextThreadId == old(nextThreadId) && nextMessageId == old(nextMessageId) + 1)
    {
      var tag := ThreadTag(subject);
      if tag.None? {
        if from.None? {
          return Err(ServerError);
        }
        NewThreadSubjectUntagged(subject);
        OpenThread(from.value, OrElse(subject, NoSubject), InboundBody(text, html), now);
        return Ok(true);
      }
      var id := tag.value;
      var k := FindIndex(threads, HasId(id));
      if k < 0 {
        return Err(NotFound);
      }
      if from.None? {
        return Err(ServerError);
      }
      AppendToThread(k, from.value, InboundBody(text, html), now);
      r := Ok(false);
    }

    /** The webhook's new-thread path: an open thread for the sender and its
        first message. */
    method OpenThread(from: string, subject: string, body: string, now: int)
      requires Valid() && Untagged(subject)
      modifies this
      ensures Valid()
      ensures var email := SenderEmail(from);
              var name := NameOr(SenderName(from), email);
              threads == old(threads) + [Thread(old(nextThreadId), subject, name, email, "open", now, None)]
              && messages == old(messages) + [ThreadMessage(old(nextMessageId), old(nextThreadId), "customer",
                                                            name, email, body, false, now)]
              && nextThreadId == old(nextThreadId) + 1 && nextMessageId == old(nextMessageId) + 1
    {
      var email := SenderEmail(from);
      var name := NameOr(SenderName(from), email);
      var threadId := nextThreadId;
      var messageId := nextMessageId;
      var created := Thread(threadId, subject, name, email, "open", now, None);
      var stored := ThreadMessage(messageId, threadId, "customer", name, email, body, false, now);
      AppendThreadValid(threads, threadId, created);
      AppendMessageValid(messages, messageId, stored);
      threads := threads + [created];
      messages := messages + [stored];
      nextThreadId := threadId + 1;
      nextMessageId := messageId + 1;
    }

    /** The webhook's tagged path: the message joins the thread at index k,
        which is reopened. */
    method AppendToThread(k: nat, from: string, body: string, now: int)
      requires Valid() && k < |threads|
      modifies this`threads, this`messages, this`nextMessageId
      ensures Valid()
      ensures var t := old(threads)[k];
              messages == old(messages) + [ThreadMessage(old(nextMessageId), t.id, "customer",
                                                         NameOr(SenderName(from), t.customerName),
                                                         SenderEmail(from), body, false, now)]
              && threads == Updated(old(threads), t.id, Reopen(now))
              && nextMessageId == old(nextMessageId) + 1
    {
      var t := threads[k];
      var messageId := nextMessageId;
      var stored := ThreadMessage(messageId, t.id, "customer", NameOr(SenderName(from), t.customerName),
                                  SenderEmail(from), body, false, now);
      AppendMessageValid(messages, messageId, stored);
      messages := messages + [stored];
      nextMessageId := messageId + 1;
      UpdatedValid(threads, nextThreadId, t.id, Reopen(now));
      threads := Updated(threads, t.id, Reopen(now));
    }

    /** `PUT /threads/:id/status`: only `open` and `closed` are accepted. */
    method SetThreadStatus(session: Session, id: int, status: Option<string>) returns (r: Result<()>)
      requires Valid()
      modifies this`threads
      ensures Valid()
      ensures !IsAdmin(session) ==> r == Err(Unauthorized) && threads == old(threads)
      ensures IsAdmin(session) && !KnownStatus(status) ==> r == Err(BadRequest) && threads == old(threads)
      ensures IsAdmin(session) && KnownStatus(status) ==>
                r == Ok(()) && threads == Updated(old(threads), id, SetStatus(status.value))
    {
      if !IsAdmin(session) {
        return Err(Unauthorized);
      }
      if !KnownStatus(status) {
        return Err(BadRequest);
      }
      UpdatedValid(threads, nextThreadId, id, SetStatus(status.value));
      threads := Updated(threads, id, SetStatus(status.value));
      r := Ok(());
    }

    /** `DELETE /threads/:id`: the thread row goes; its messages stay in
        their table, unlisted. */
    method DeleteThread(session: Session, id: int) returns (r: Result<()>)
      requires Valid()
      modifies this`threads
      ensures Valid()
      ensures !IsAdmin(session) ==> r == Err(Unauthorized) && threads == old(threads)
      ensures IsAdmin(session) ==> r == Ok(()) && threads == Filter(old(threads), NotThread(id))
                                   && forall k :: 0 <= k < |threads| ==> threads[k].id != id
    {
      if !IsAdmin(session) {
        return Err(Unauthorized);
      }
      var kept := Filter(threads, NotThread(id));
      FilterKeepsPairs(threads, NotThread(id), ThreadsOrdered);
      threads := kept;
      r := Ok(());
    }
  }

  function ThreadsOrdered(a: Thread, b: Thread): bool {
    a.id < b.id
  }
}
