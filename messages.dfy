/** The post-processing of the messages repository: recipient names are normalised,
    message lists are rewritten per folder and sorted by date, and folder ids are checked
    before a message is read or deleted; sending checks the anti-forgery token. What the
    web service returns is an argument here. */
module MessagesRepository {
  import opened Wrappers
  import opened Seqs
  import opened Text

  /** Date-times are compared, never inspected. */
  type DateTime = int

  /** A message recipient (or sender): its login id, its full name as the service gives it,
      the short name the repository derives from it, and its role. */
  datatype Recipient = Recipient(loginId: int, name: string, shortName: string, role: int)

  datatype Attachment = Attachment(url: string, filename: string)

  /** A message as the service returns it. */
  datatype Message = Message(
    id: Option<int>,
    messageId: Option<int>,
    folderId: int,
    date: DateTime,
    subject: string,
    content: Option<string>,
    recipients: Option<seq<Recipient>>,
    attachments: Option<seq<Attachment>>,
    removed: bool)

  /** The exceptions of the repository: `IllegalArgumentException`, `VulcanException`,
      `ScrapperException`, the `NullPointerException` of `!!` on missing response data,
      and whatever a service call throws. */
  datatype MessagesError =
    | IllegalArgument(message: string)
    | Vulcan(message: string)
    | Scrapper(message: string)
    | NullData
    | Service(message: string)

  // ---------------------------------------------------------------- recipient names

  /** `normalizeRecipient`: the name before its last "-", then before its first " [",
      then before its last " (", trimmed. */
  function NormalizeRecipient(name: string): string {
    Trim(SubstringBeforeLast(SubstringBefore(SubstringBeforeLast(name, "-"), " ["), " ("))
  }

  /** What occurs in an infix of `b` occurs in `b`. */
  lemma OccursInInfix(b: string, c: string, d: string, j: int, k: int)
    requires OccursAt(b, c, j) && OccursAt(c, d, k)
    ensures OccursAt(b, d, j + k)
  {
    assert forall t :: 0 <= t < |d| ==> d[t] == c[k + t] == b[j + k + t];
  }

  /** A string that does not occur in `b` does not occur in an infix of `b`. */
  lemma AbsentFromInfix(b: string, c: string, d: string, j: int)
    requires OccursAt(b, c, j) && !Contains(b, d)
    ensures !Contains(c, d)
  {
    forall k ensures !OccursAt(c, d, k) {
      if OccursAt(c, d, k) {
        OccursInInfix(b, c, d, j, k);
      }
    }
  }

  /** The text before the first occurrence of a non-empty `d` does not contain `d`. */
  lemma BeforeFirstLacks(s: string, d: string)
    requires |d| > 0
    ensures !Contains(SubstringBefore(s, d), d)
  {
    if Contains(s, d) {
      var n := |SubstringBefore(s, d)|;
      assert SubstringBefore(s, d) == s[..n];
      forall j ensures !OccursAt(s[..n], d, j) {
        OccursInPrefix(s, d, n, j);
      }
    }
  }

  /** A prefix is an infix at 0. */
  lemma PrefixIsInfix(s: string, r: string)
    requires |r| <= |s| && r == s[..|r|]
    ensures OccursAt(s, r, 0)
  {
  }

  /** The trimmed text is an infix of the text. */
  lemma TrimInfix(s: string) returns (i: int)
    ensures OccursAt(s, Trim(s), i)
  {
    TrimIsInfix(s);
    i := TrimFrom(s);
  }

  /** The cut-and-trim pipeline, for any delimiters: what it keeps is an infix of the text
      before the last `d1` and does not contain `d2`. */
  lemma CutAndTrim(name: string, d1: string, d2: string, d3: string) returns (i: int)
    requires |d2| > 0
    ensures var s1 := SubstringBeforeLast(name, d1);
      var r := Trim(SubstringBeforeLast(SubstringBefore(s1, d2), d3));
      OccursAt(s1, r, i) && !Contains(r, d2)
  {
    var s1 := SubstringBeforeLast(name, d1);
    var s2 := SubstringBefore(s1, d2);
    var s3 := SubstringBeforeLast(s2, d3);
    var r := Trim(s3);
    var j := TrimInfix(s3);
    PrefixIsInfix(s2, s3);
    OccursInInfix(s2, s3, r, 0, j);
    PrefixIsInfix(s1, s2);
    OccursInInfix(s1, s2, r, 0, j);
    BeforeFirstLacks(s1, d2);
    AbsentFromInfix(s2, r, d2, j);
    i := j;
  }

  /** A normalised name has no surrounding whitespace, contains no " [", and is an infix
      of the part of the name before its last "-" (all of the name when it has no "-"). */
  lemma NormalizeRecipientShape(name: string)
    ensures var r := NormalizeRecipient(name);
      && (|r| > 0 ==> !IsWhitespace(r[0]) && !IsWhitespace(r[|r| - 1]))
      && !Contains(r, " [")
      && exists i :: OccursAt(SubstringBeforeLast(name, "-"), r, i)
  {
    var i := CutAndTrim(name, "-", " [", " (");
  }

  /** The part before the last "-" is the part before the "-" at the index `lastIndexOf`
      gives; a name without "-" keeps its whole length. */
  lemma NormalizeRecipientBound(name: string)
    ensures Contains(name, "-") ==> |NormalizeRecipient(name)| <= LastIndexOf(name, "-").value
    ensures |NormalizeRecipient(name)| <= |name|
  {
    NormalizeRecipientShape(name);
  }

  /** A name with none of "-", " [" and " (" is only trimmed. */
  lemma NormalizePlainName(name: string)
    requires !Contains(name, "-") && !Contains(name, " [") && !Contains(name, " (")
    ensures NormalizeRecipient(name) == Trim(name)
  {
  }

  /** The recipient with its short name derived from its name. */
  function WithShortName(r: Recipient): Recipient {
    r.(shortName := NormalizeRecipient(r.name))
  }

  /** The recipient with its name normalised. */
  function WithNormalizedName(r: Recipient): Recipient {
    r.(name := NormalizeRecipient(r.name))
  }

  /** The post-processing of `getRecipients` (and of `getMessageRecipients`): every
      recipient kept, in order, with only its short name set, from its name. */
  function RecipientsWithShortNames(data: Option<seq<Recipient>>): (r: seq<Recipient>)
    ensures var rs := data.GetOr([]);
      && |r| == |rs|
      && forall i :: 0 <= i < |rs| ==>
           r[i].shortName == NormalizeRecipient(rs[i].name) && r[i].(shortName := rs[i].shortName) == rs[i]
  {
    MapSeq(data.GetOr([]), WithShortName)
  }

  /** `getMessageRecipients`: the recipients of a message when no login id is given,
      otherwise its sender, with short names set. */
  function MessageRecipients(loginId: int, ofMessage: Option<seq<Recipient>>, ofSender: Option<seq<Recipient>>): (r: seq<Recipient>)
    ensures loginId == 0 ==> r == RecipientsWithShortNames(ofMessage)
    ensures loginId != 0 ==> r == RecipientsWithShortNames(ofSender)
  {
    RecipientsWithShortNames(if 0 == loginId then ofMessage else ofSender)
  }

  // ---------------------------------------------------------------- sorting by date

  /** The messages are in ascending date order. */
  predicate SortedByDate(s: seq<Message>) {
    forall i, j :: 0 <= i < j < |s| ==> s[i].date <= s[j].date
  }

  /** The messages of date `d`, in their order in `s`. */
  function WithDate(s: seq<Message>, d: DateTime): (r: seq<Message>)
    ensures forall m :: m in r ==> m in s && m.date == d
    decreases |s|
  {
    if s == [] then [] else (if s[0].date == d then [s[0]] else []) + WithDate(s[1..], d)
  }

  /** `m` placed before the first message of `s` that is not earlier than it. */
  function InsertByDate(m: Message, s: seq<Message>): (r: seq<Message>)
    ensures multiset(r) == multiset(s) + multiset{m}
    decreases |s|
  {
    if s == [] then [m]
    else if m.date <= s[0].date then [m] + s
    else
      assert s == [s[0]] + s[1..];
      [s[0]] + InsertByDate(m, s[1..])
  }

  /** Insertion into a sorted sequence keeps it sorted. */
  lemma {:induction false} InsertSorted(m: Message, s: seq<Message>)
    requires SortedByDate(s)
    ensures SortedByDate(InsertByDate(m, s))
    decreases |s|
  {
    if s != [] && m.date > s[0].date {
      var rest := InsertByDate(m, s[1..]);
      InsertSorted(m, s[1..]);
      forall k | 0 <= k < |rest| ensures s[0].date <= rest[k].date {
        assert rest[k] in multiset(rest);
        if rest[k] != m {
          assert rest[k] in multiset(s[1..]);
          var j :| 0 <= j < |s[1..]| && s[1..][j] == rest[k];
          assert s[j + 1] == rest[k];
        }
      }
      ConsSorted(s[0], rest);
    }
  }

  /** A message not later than every message of a sorted sequence can go in front. */
  lemma ConsSorted(x: Message, s: seq<Message>)
    requires SortedByDate(s)
    requires forall k :: 0 <= k < |s| ==> x.date <= s[k].date
    ensures SortedByDate([x] + s)
  {
    forall i, j | 0 <= i < j < |s| + 1 ensures ([x] + s)[i].date <= ([x] + s)[j].date {
      assert ([x] + s)[j] == s[j - 1];
      if i > 0 {
        assert ([x] + s)[i] == s[i - 1];
      }
    }
  }

  /** Insertion puts `m` first among the messages of its date and leaves the other dates
      alone. */
  lemma {:induction false} InsertWithDate(m: Message, s: seq<Message>, d: DateTime)
    ensures WithDate(InsertByDate(m, s), d) == if d == m.date then [m] + WithDate(s, d) else WithDate(s, d)
    decreases |s|
  {
    if s == [] {
    } else if m.date <= s[0].date {
      assert ([m] + s)[1..] == s;
    } else {
      InsertWithDate(m, s[1..], d);
      assert ([s[0]] + InsertByDate(m, s[1..]))[1..] == InsertByDate(m, s[1..]);
    }
  }

  /** Kotlin's `sortedBy { it.date }`: a stable sort by date. The result is sorted and is
      a permutation of the input. */
  function SortByDate(s: seq<Message>): (r: seq<Message>)
    ensures SortedByDate(r)
    ensures multiset(r) == multiset(s)
    decreases |s|
  {
    if s == [] then []
    else
      assert s == [s[0]] + s[1..];
      InsertSorted(s[0], SortByDate(s[1..]));
      InsertByDate(s[0], SortByDate(s[1..]))
  }

  /** The sort is stable: the messages of each date keep their input order. */
  lemma {:induction false} SortByDateStable(s: seq<Message>, d: DateTime)
    ensures WithDate(SortByDate(s), d) == WithDate(s, d)
    decreases |s|
  {
    if s != [] {
      SortByDateStable(s[1..], d);
      InsertWithDate(s[0], SortByDate(s[1..]), d);
    }
  }

  /** A date-preserving rewrite commutes with insertion. */
  lemma {:induction false} MapInsertCommute(f: Message -> Message, m: Message, s: seq<Message>)
    requires forall x :: f(x).date == x.date
    ensures MapSeq(InsertByDate(m, s), f) == InsertByDate(f(m), MapSeq(s, f))
    decreases |s|
  {
    if s == [] {
    } else if m.date <= s[0].date {
      MapSeqCons(m, s, f);
    } else {
      MapInsertCommute(f, m, s[1..]);
      MapSeqCons(s[0], InsertByDate(m, s[1..]), f);
    }
  }

  /** Rewriting every message without touching its date, then sorting, is the same as
      sorting, then rewriting. */
  lemma {:induction false} MapSortCommute(f: Message -> Message, s: seq<Message>)
    requires forall x :: f(x).date == x.date
    ensures MapSeq(SortByDate(s), f) == SortByDate(MapSeq(s, f))
    decreases |s|
  {
    if s != [] {
      var mapped := MapSeq(s, f);
      assert s == [s[0]] + s[1..];
      MapSeqCons(s[0], s[1..], f);
      assert mapped[0] == f(s[0]) && mapped[1..] == MapSeq(s[1..], f);
      calc {
        MapSeq(SortByDate(s), f);
        MapSeq(InsertByDate(s[0], SortByDate(s[1..])), f);
        { MapInsertCommute(f, s[0], SortByDate(s[1..])); }
        InsertByDate(f(s[0]), MapSeq(SortByDate(s[1..]), f));
        { MapSortCommute(f, s[1..]); }
        InsertByDate(mapped[0], SortByDate(mapped[1..]));
        SortByDate(mapped);
      }
    }
  }

  // ---------------------------------------------------------------- message lists

  /** The recipients of a message with their names normalised (`recipients?.map`). */
  function NormalizeNames(recipients: Option<seq<Recipient>>): (r: Option<seq<Recipient>>)
    ensures r.Some? <==> recipients.Some?
    ensures r.Some? ==>
      && |r.value| == |recipients.value|
      && forall i :: 0 <= i < |r.value| ==>
           r.value[i].name == NormalizeRecipient(recipients.value[i].name)
           && r.value[i].(name := recipients.value[i].name) == recipients.value[i]
  {
    match recipients
    case None => None
    case Some(rs) => Some(MapSeq(rs, WithNormalizedName))
  }

  /** The rewrite of a received message. */
  function AsReceived(m: Message): Message {
    m.(recipients := NormalizeNames(m.recipients))
  }

  /** The rewrite of a sent message. */
  function AsSent(m: Message): Message {
    m.(messageId := m.id, folderId := 2, recipients := NormalizeNames(m.recipients))
  }

  /** The rewrite of a deleted message. */
  function AsDeleted(m: Message): Message {
    m.(recipients := NormalizeNames(m.recipients), removed := true)
  }

  /** `getReceivedMessages`: sorted by date, then the recipient names normalised. */
  function ReceivedMessages(data: Option<seq<Message>>): seq<Message> {
    MapSeq(SortByDate(data.GetOr([])), AsReceived)
  }

  /** `getSentMessages`: rewritten as sent messages, then sorted by date. */
  function SentMessages(data: Option<seq<Message>>): seq<Message> {
    SortByDate(MapSeq(data.GetOr([]), AsSent))
  }

  /** `getDeletedMessages`: marked removed, then sorted by date. */
  function DeletedMessages(data: Option<seq<Message>>): seq<Message> {
    SortByDate(MapSeq(data.GetOr([]), AsDeleted))
  }

  /** Each folder's list is the stable date order of its rewritten messages: sorted,
      a permutation of the rewritten input, and in input order within one date. */
  ghost predicate StablySortedRewrite(r: seq<Message>, input: seq<Message>, f: Message -> Message) {
    && SortedByDate(r)
    && multiset(r) == multiset(MapSeq(input, f))
    && forall d :: WithDate(r, d) == WithDate(MapSeq(input, f), d)
  }

  /** The messages of a rewritten list are the rewrites of the input's messages. */
  lemma RewriteMembers(r: seq<Message>, input: seq<Message>, f: Message -> Message)
    requires multiset(r) == multiset(MapSeq(input, f))
    ensures forall m :: m in r <==> exists x :: x in input && f(x) == m
  {
    var mapped := MapSeq(input, f);
    forall m ensures m in r <==> exists x :: x in input && f(x) == m {
      assert m in r <==> m in multiset(mapped);
      if m in mapped {
        var i :| 0 <= i < |mapped| && mapped[i] == m;
        assert input[i] in input;
      }
      if exists x :: x in input && f(x) == m {
        var x :| x in input && f(x) == m;
        var i :| 0 <= i < |input| && input[i] == x;
        assert mapped[i] == m;
      }
    }
  }

  /** Sorting a rewritten list gives its stable date order. */
  lemma SortIsStablySortedRewrite(input: seq<Message>, f: Message -> Message)
    ensures StablySortedRewrite(SortByDate(MapSeq(input, f)), input, f)
  {
    forall d ensures WithDate(SortByDate(MapSeq(input, f)), d) == WithDate(MapSeq(input, f), d) {
      SortByDateStable(MapSeq(input, f), d);
    }
  }

  /** Received messages are sorted by date and are the input's messages with their
      recipients' names normalised; the order of sorting and rewriting does not matter. */
  lemma ReceivedMessagesSorted(data: Option<seq<Message>>)
    ensures ReceivedMessages(data) == SortByDate(MapSeq(data.GetOr([]), AsReceived))
    ensures StablySortedRewrite(ReceivedMessages(data), data.GetOr([]), AsReceived)
    ensures forall m :: m in ReceivedMessages(data) <==>
      exists x :: x in data.GetOr([]) && m == x.(recipients := NormalizeNames(x.recipients))
  {
    MapSortCommute(AsReceived, data.GetOr([]));
    SortIsStablySortedRewrite(data.GetOr([]), AsReceived);
    RewriteMembers(ReceivedMessages(data), data.GetOr([]), AsReceived);
  }

  /** Sent messages are sorted by date and are the input's messages, each moved to folder
      2 with its message id set to its id and its recipients' names normalised. */
  lemma SentMessagesRewritten(data: Option<seq<Message>>)
    ensures StablySortedRewrite(SentMessages(data), data.GetOr([]), AsSent)
    ensures forall m :: m in SentMessages(data) <==>
      exists x :: x in data.GetOr([]) && m == x.(messageId := x.id, folderId := 2, recipients := NormalizeNames(x.recipients))
    ensures forall m :: m in SentMessages(data) ==> m.folderId == 2 && m.messageId == m.id
  {
    SortIsStablySortedRewrite(data.GetOr([]), AsSent);
    RewriteMembers(SentMessages(data), data.GetOr([]), AsSent);
  }

  /** Deleted messages are sorted by date and are the input's messages, each marked
      removed with its recipients' names normalised. */
  lemma DeletedMessagesRemoved(data: Option<seq<Message>>)
    ensures StablySortedRewrite(DeletedMessages(data), data.GetOr([]), AsDeleted)
    ensures forall m :: m in DeletedMessages(data) <==>
      exists x :: x in data.GetOr([]) && m == x.(recipients := NormalizeNames(x.recipients), removed := true)
    ensures forall m :: m in DeletedMessages(data) ==> m.removed
  {
    SortIsStablySortedRewrite(data.GetOr([]), AsDeleted);
    RewriteMembers(DeletedMessages(data), data.GetOr([]), AsDeleted);
  }

  // ---------------------------------------------------------------- folders

  datatype Folder = Inbox | Outbox | Trash

  /** The id the service uses for a folder. */
  function FolderId(f: Folder): int {
    match f
    case Inbox => 1
    case Outbox => 2
    case Trash => 3
  }

  /** The `when (folderId)` of `getMessageDetails` and `deleteMessages`: ids 1, 2 and 3
      name the inbox, outbox and trash, any other id is rejected. */
  function FolderOf(folderId: int): (r: Result<Folder, MessagesError>)
    ensures r.Ok? <==> folderId in {1, 2, 3}
    ensures r.Ok? ==> FolderId(r.value) == folderId
    ensures r.Err? ==> r.error == IllegalArgument("Unknown folder id: " + IntToString(folderId))
  {
    if folderId == 1 then Ok(Inbox)
    else if folderId == 2 then Ok(Outbox)
    else if folderId == 3 then Ok(Trash)
    else Err(IllegalArgument("Unknown folder id: " + IntToString(folderId)))
  }

  /** Every folder's id resolves to that folder. */
  lemma FolderIdRoundTrip(f: Folder)
    ensures FolderOf(FolderId(f)) == Ok(f)
  {
  }

  /** `getMessageDetails`: the response data of the folder's endpoint, which must be
      present. `fetch` stands for the three service calls. */
  function MessageDetails(folderId: int, fetch: Folder -> Option<Message>): (r: Result<Message, MessagesError>)
    ensures folderId !in {1, 2, 3} ==> r == Err(IllegalArgument("Unknown folder id: " + IntToString(folderId)))
    ensures folderId in {1, 2, 3} ==>
      var f := FolderOf(folderId).value;
      && FolderId(f) == folderId
      && (fetch(f).None? <==> r == Err(NullData))
      && (fetch(f).Some? ==> r == Ok(fetch(f).value))
  {
    match FolderOf(folderId)
    case Err(e) => Err(e)
    case Ok(f) =>
      match fetch(f)
      case None => Err(NullData)
      case Some(m) => Ok(m)
  }

  /** `getMessage`: the content of the message, "" when it has none. */
  function MessageContent(folderId: int, fetch: Folder -> Option<Message>): (r: Result<string, MessagesError>)
    ensures r.Err? <==> MessageDetails(folderId, fetch).Err?
    ensures r.Err? ==> r.error == MessageDetails(folderId, fetch).error
    ensures r.Ok? ==> r.value == MessageDetails(folderId, fetch).value.content.GetOr("")
  {
    match MessageDetails(folderId, fetch)
    case Err(e) => Err(e)
    case Ok(m) => Ok(m.content.GetOr(""))
  }

  /** `getMessageAttachments`: the attachments of the message, none when it has none. */
  function MessageAttachments(folderId: int, fetch: Folder -> Option<Message>): (r: Result<seq<Attachment>, MessagesError>)
    ensures r.Err? <==> MessageDetails(folderId, fetch).Err?
    ensures r.Err? ==> r.error == MessageDetails(folderId, fetch).error
    ensures r.Ok? ==> r.value == MessageDetails(folderId, fetch).value.attachments.GetOr([])
  {
    match MessageDetails(folderId, fetch)
    case Err(e) => Err(e)
    case Ok(m) => Ok(m.attachments.GetOr([]))
  }

  const EmptyDeleteResponse := "Unexpected empty response. Message(s) may already be deleted"

  /** `deleteMessages`: the start page is fetched first, then the folder's delete endpoint
      is called with the ids; a blank response is an error, any other is parsed for its
      `success` flag. `start` is the outcome of `getStart`, `respond` stands for the three
      service calls given the page their parameters are read from, and `parseSuccess` for
      the JSON parsing of the response. */
  function DeleteMessages(messages: seq<int>, folderId: int, start: Result<string, MessagesError>,
                          respond: (Folder, seq<int>, string) -> string, parseSuccess: string -> bool): (r: Result<bool, MessagesError>)
    ensures start.Err? ==> r == Err(start.error)
    ensures start.Ok? && folderId !in {1, 2, 3} ==> r == Err(IllegalArgument("Unknown folder id: " + IntToString(folderId)))
    ensures start.Ok? && folderId in {1, 2, 3} ==>
      var res := respond(FolderOf(folderId).value, messages, start.value);
      && FolderId(FolderOf(folderId).value) == folderId
      && (IsBlank(res) <==> r == Err(Vulcan(EmptyDeleteResponse)))
      && (!IsBlank(res) <==> r == Ok(parseSuccess(res)))
  {
    match start
    case Err(e) => Err(e)
    case Ok(page) =>
      match FolderOf(folderId)
      case Err(e) => Err(e)
      case Ok(f) =>
        var res := respond(f, messages, page);
        if IsBlank(res) then Err(Vulcan(EmptyDeleteResponse)) else Ok(parseSuccess(res))
  }

  const MissingAntiForgeryToken := "Can't find antiForgeryToken property!"

  /** The message `sendMessage` posts. */
  datatype OutgoingMessage = OutgoingMessage(recipients: seq<Recipient>, subject: string, content: string)

  /** `sendMessage`: the start page is fetched, its anti-forgery token must not be blank,
      and the response of the send call must carry data. `start` is the outcome of
      `getStart`, `antiForgeryToken` stands for reading the token from the page, and `send`
      for the service call given the message and the page. */
  function SendMessage<T>(subject: string, content: string, recipients: seq<Recipient>,
                          start: Result<string, MessagesError>, antiForgeryToken: string -> string,
                          send: (OutgoingMessage, string) -> Option<T>): (r: Result<T, MessagesError>)
    ensures start.Err? ==> r == Err(start.error)
    ensures start.Ok? ==>
      (IsBlank(antiForgeryToken(start.value)) <==> r == Err(Scrapper(MissingAntiForgeryToken)))
    ensures start.Ok? && !IsBlank(antiForgeryToken(start.value)) ==>
      var data := send(OutgoingMessage(recipients, subject, content), start.value);
      && (data.None? <==> r == Err(NullData))
      && (data.Some? ==> r == Ok(data.value))
  {
    match start
    case Err(e) => Err(e)
    case Ok(page) =>
      if IsBlank(antiForgeryToken(page)) then Err(Scrapper(MissingAntiForgeryToken))
      else
        match send(OutgoingMessage(recipients, subject, content), page)
        case None => Err(NullData)
        case Some(d) => Ok(d)
  }
}
