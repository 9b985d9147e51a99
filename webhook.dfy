/** The inbound webhook endpoint: the verification handshake (GET) and the ingestion
    of one delivery (POST), over an abstract store of tenant settings, contacts and
    message rows. Answers of the outside world (time conversion, the provider's media
    endpoint, the object store upload, database errors) come from an oracle. */
module Webhook {
  import opened Common
  import opened WebhookClassifier

  // ---------------------------------------------------------------------------
  // Store rows

  /** One `user_settings` row: a tenant (business owner) and its channel. */
  datatype TenantSettings = TenantSettings(
    id: string,
    phoneNumberId: Option<string>,
    accessToken: Option<string>,
    apiVersion: Option<string>,
    verifyToken: Option<string>,
    webhookVerified: bool,
    updatedAt: Option<string>)

  /** One `users` row (a contact), keyed by phone number in the store's map. Columns
      the webhook never writes are kept so that "only last_active changes" means
      something. */
  datatype Contact = Contact(
    name: string,
    customName: Option<string>,
    whatsappName: Option<string>,
    lastActive: string)

  /** The `media_data` blob: the classifier's seed plus the relay outcome. */
  datatype MediaDescriptor = MediaDescriptor(
    seed: MediaSeed,
    mediaUrl: Option<string>,
    s3Uploaded: bool,
    uploadTimestamp: Option<string>,
    uploadError: Option<string>)

  /** One `messages` row. */
  datatype MessageRow = MessageRow(
    id: string,
    senderId: string,
    receiverId: string,
    content: string,
    timestamp: string,
    isSentByMe: bool,
    isRead: bool,
    messageType: string,
    mediaData: Option<MediaDescriptor>)

  datatype Response = Response(status: nat, body: Option<string>)

  const Ok := Response(200, Some("OK"))
  const Forbidden := Response(403, Some("Forbidden"))
  const ServerError := Response(500, Some("Internal Server Error"))
  const UploadFailed := "Failed to upload to S3"

  predicate DistinctTenantIds(ts: seq<TenantSettings>) {
    forall i, j :: 0 <= i < j < |ts| ==> ts[i].id != ts[j].id
  }

  predicate DistinctMessageIds(ms: seq<MessageRow>) {
    forall i, j :: 0 <= i < j < |ms| ==> ms[i].id != ms[j].id
  }

  predicate IdTaken(ms: seq<MessageRow>, id: string) {
    exists k :: 0 <= k < |ms| && ms[k].id == id
  }

  /** The database. `user_settings.id`, `users.id` and `messages.id` are primary keys:
      an insert that repeats one fails. */
  class Store {
    var tenants: seq<TenantSettings>
    var users: map<string, Contact>
    var messages: seq<MessageRow>

    ghost predicate Valid()
      reads this
    {
      DistinctTenantIds(tenants) && DistinctMessageIds(messages)
    }

    constructor (tenants: seq<TenantSettings>, users: map<string, Contact>, messages: seq<MessageRow>)
      requires DistinctTenantIds(tenants) && DistinctMessageIds(messages)
      ensures Valid()
      ensures this.tenants == tenants && this.users == users && this.messages == messages
    {
      this.tenants := tenants;
      this.users := users;
      this.messages := messages;
    }
  }

  // ---------------------------------------------------------------------------
  // `.eq(column, value).single()` on `user_settings`

  datatype Column = PhoneNumberIdColumn | VerifyTokenColumn

  function ColumnValue(t: TenantSettings, c: Column): Option<string> {
    match c
    case PhoneNumberIdColumn => t.phoneNumberId
    case VerifyTokenColumn => t.verifyToken
  }

  /** The positions of the rows whose column equals `v`, in increasing order. A null
      column never equals a value. */
  function MatchingRows(ts: seq<TenantSettings>, c: Column, v: string): (r: seq<nat>)
    ensures forall k :: 0 <= k < |r| ==> r[k] < |ts| && ColumnValue(ts[r[k]], c) == Some(v)
    ensures forall i :: 0 <= i < |ts| && ColumnValue(ts[i], c) == Some(v) ==> i in r
    ensures forall k, l :: 0 <= k < l < |r| ==> r[k] < r[l]
  {
    if ts == [] then []
    else
      var rest := MatchingRows(ts[..|ts| - 1], c, v);
      if ColumnValue(ts[|ts| - 1], c) == Some(v) then rest + [|ts| - 1] else rest
  }

  /** `.single()` succeeds exactly when one row matches. */
  function SingleRow(ts: seq<TenantSettings>, c: Column, v: string): (r: Option<nat>)
    ensures r.Some? ==> r.value < |ts| && ColumnValue(ts[r.value], c) == Some(v)
    ensures r.Some? ==> forall j :: 0 <= j < |ts| && j != r.value ==> ColumnValue(ts[j], c) != Some(v)
    ensures r.None? ==>
              || (forall j :: 0 <= j < |ts| ==> ColumnValue(ts[j], c) != Some(v))
              || (exists i, j :: 0 <= i < j < |ts| && ColumnValue(ts[i], c) == Some(v) && ColumnValue(ts[j], c) == Some(v))
  {
    var rows := MatchingRows(ts, c, v);
    if |rows| == 1 then
      assert forall j :: 0 <= j < |ts| && ColumnValue(ts[j], c) == Some(v) ==> j == rows[0] by {
        forall j | 0 <= j < |ts| && ColumnValue(ts[j], c) == Some(v) ensures j == rows[0] {
          assert j in rows;
        }
      }
      Some(rows[0])
    else if |rows| == 0 then
      None
    else
      assert ColumnValue(ts[rows[0]], c) == Some(v) && ColumnValue(ts[rows[1]], c) == Some(v);
      None
  }

  // ---------------------------------------------------------------------------
  // GET: the verification handshake

  /** Which tenant the handshake accepts, if any (app/api/webhook/route.ts, GET). */
  function VerifyDecision(ts: seq<TenantSettings>, mode: Option<string>, token: Option<string>): (r: Option<nat>)
    ensures r.Some? <==> mode == Some("subscribe") && Present(token) && SingleRow(ts, VerifyTokenColumn, token.value).Some?
    ensures r.Some? ==> r.value < |ts| && ts[r.value].verifyToken == token
    ensures r.Some? ==> forall j :: 0 <= j < |ts| && j != r.value ==> ts[j].verifyToken != token
  {
    if mode != Some("subscribe") then None
    else if !Present(token) then None
    else SingleRow(ts, VerifyTokenColumn, token.value)
  }

  /** `update({webhook_verified: true, updated_at}).eq('id', id)`. */
  function MarkVerified(ts: seq<TenantSettings>, id: string, now: string): (r: seq<TenantSettings>)
    ensures |r| == |ts|
    ensures forall j :: 0 <= j < |ts| ==>
              r[j] == if ts[j].id == id then ts[j].(webhookVerified := true, updatedAt := Some(now)) else ts[j]
  {
    seq(|ts|, j requires 0 <= j < |ts| =>
      if ts[j].id == id then ts[j].(webhookVerified := true, updatedAt := Some(now)) else ts[j])
  }

  /** The GET handler. `updateOk` is whether the database accepted the update (its
      error is not checked by the handler); `now` is the clock. */
  method Verify(db: Store, mode: Option<string>, token: Option<string>, challenge: Option<string>, updateOk: bool, now: string)
    returns (resp: Response)
    requires db.Valid()
    modifies db
    ensures db.Valid()
    ensures db.users == old(db.users) && db.messages == old(db.messages)
    ensures |db.tenants| == |old(db.tenants)|
    ensures var d := VerifyDecision(old(db.tenants), mode, token);
            && (d.None? ==> resp == Forbidden && db.tenants == old(db.tenants))
            && (d.Some? ==> resp == Response(200, challenge))
            && (d.Some? ==> forall j :: 0 <= j < |db.tenants| && j != d.value ==> db.tenants[j] == old(db.tenants[j]))
            && (d.Some? && updateOk ==> db.tenants[d.value] == old(db.tenants[d.value]).(webhookVerified := true, updatedAt := Some(now)))
            && (d.Some? && !updateOk ==> db.tenants == old(db.tenants))
  {
    if mode != Some("subscribe") {
      return Forbidden;
    }
    if !Present(token) {
      return Forbidden;
    }
    var found := SingleRow(db.tenants, VerifyTokenColumn, token.value);
    if found.None? {
      return Forbidden;
    }
    var settingsId := db.tenants[found.value].id;
    if updateOk {
      db.tenants := MarkVerified(db.tenants, settingsId, now);
    }
    resp := Response(200, challenge);
  }

  // ---------------------------------------------------------------------------
  // POST: the delivery envelope

  datatype WaContact = WaContact(waId: string, profileName: Option<string>)

  datatype ChangeValue = ChangeValue(
    phoneNumberId: Option<string>,
    messages: Option<seq<RawMessage>>,
    contacts: Option<seq<WaContact>>)

  datatype Change = Change(value: Option<ChangeValue>)

  datatype Entry = Entry(changes: Option<seq<Change>>)

  /** The parsed request body. */
  datatype Envelope = Envelope(entry: Option<seq<Entry>>)

  /** `body.entry?.[0]?.changes?.[0]?.value`: only the first change of the first entry
      is read. */
  function FirstValue(env: Envelope): Option<ChangeValue> {
    if env.entry.None? || |env.entry.value| == 0 then None
    else
      var e := env.entry.value[0];
      if e.changes.None? || |e.changes.value| == 0 then None else e.changes.value[0].value
  }

  /** `value?.messages || []`. */
  function MessagesOf(env: Envelope): seq<RawMessage> {
    var v := FirstValue(env);
    if v.Some? && v.value.messages.Some? then v.value.messages.value else []
  }

  function ContactsOf(env: Envelope): seq<WaContact> {
    var v := FirstValue(env);
    if v.Some? && v.value.contacts.Some? then v.value.contacts.value else []
  }

  /** The receiving channel, when the envelope names one (a truthy `phone_number_id`). */
  function ChannelOf(env: Envelope): Option<string> {
    var v := FirstValue(env);
    if v.Some? && Present(v.value.phoneNumberId) then v.value.phoneNumberId else None
  }

  /** The tenant a delivery is attributed to: the one row whose `phone_number_id`
      equals the envelope's channel. */
  function ResolveTenant(ts: seq<TenantSettings>, env: Envelope): (r: Option<nat>)
    ensures r.Some? <==> ChannelOf(env).Some? && SingleRow(ts, PhoneNumberIdColumn, ChannelOf(env).value).Some?
    ensures r.Some? ==> r.value < |ts| && ts[r.value].phoneNumberId == ChannelOf(env)
    ensures r.Some? ==> forall j :: 0 <= j < |ts| && j != r.value ==> ts[j].phoneNumberId != ChannelOf(env)
  {
    var channel := ChannelOf(env);
    if channel.None? then None else SingleRow(ts, PhoneNumberIdColumn, channel.value)
  }

  /** `contacts.find(c => c.wa_id === phone)`. */
  function FindContact(cs: seq<WaContact>, phone: string): (r: Option<nat>)
    ensures r.Some? ==>
              && r.value < |cs| && cs[r.value].waId == phone
              && forall k :: 0 <= k < r.value ==> cs[k].waId != phone
    ensures r.None? ==> forall k :: 0 <= k < |cs| ==> cs[k].waId != phone
  {
    if cs == [] then None
    else if cs[0].waId == phone then Some(0)
    else
      var r := FindContact(cs[1..], phone);
      if r.Some? then Some(r.value + 1) else None
  }

  /** `contact?.profile?.name || phoneNumber`. */
  function ContactName(cs: seq<WaContact>, phone: string): (name: string)
    ensures var f := FindContact(cs, phone);
            name == if f.Some? && Present(cs[f.value].profileName) then cs[f.value].profileName.value else phone
  {
    var f := FindContact(cs, phone);
    if f.Some? then OrElse(cs[f.value].profileName, phone) else phone
  }

  /** What the tenant lookup hands to the per-message loop. */
  datatype TenantContext = TenantContext(tenantId: string, accessToken: Option<string>, contacts: seq<WaContact>)

  /** The outside world's answers while one message is processed. */
  datatype Answers = Answers(
    isoTime: Option<string>,    // `new Date(parseInt(ts) * 1000).toISOString()`; None: it throws
    graphUrl: Option<string>,   // the provider's short-lived media URL (`getWhatsAppMediaUrl`)
    uploadUrl: Option<string>,  // what the object-store upload returns
    lookupOk: bool,             // the `users` lookup returned without error
    userWriteOk: bool,          // the contact insert or update reported no error
    messageInsertOk: bool,      // the message insert reported no error (other than a repeated id)
    now: string)                // the clock, for `upload_timestamp`

  // ---------------------------------------------------------------------------
  // Media relay and descriptor

  /** The relay is attempted only for a media message whose id and tenant access
      token are both truthy. */
  predicate RelayAttempted(seed: Option<MediaSeed>, accessToken: Option<string>) {
    seed.Some? && Present(seed.value.id) && Present(accessToken)
  }

  /** The final `s3MediaUrl`: the upload's answer when the provider returned a media
      URL and the media id is all digits, otherwise none. */
  function RelayUrl(seed: Option<MediaSeed>, accessToken: Option<string>, a: Answers): (url: Option<string>)
    ensures url.Some? ==>
              && RelayAttempted(seed, accessToken) && AllDigits(seed.value.id.value)
              && Present(a.graphUrl) && url == a.uploadUrl
    ensures RelayAttempted(seed, accessToken) && Present(a.graphUrl) && AllDigits(seed.value.id.value) ==> url == a.uploadUrl
  {
    if RelayAttempted(seed, accessToken) && Present(a.graphUrl) && AllDigits(seed.value.id.value) then a.uploadUrl
    else None
  }

  /** The relay outcome recorded in a descriptor agrees with itself: `s3_uploaded`
      exactly when a truthy URL is stored and exactly when an upload time is stored,
      and an error only when the upload did not happen. */
  predicate DescriptorConsistent(d: MediaDescriptor) {
    && (d.s3Uploaded <==> Present(d.mediaUrl))
    && (d.s3Uploaded <==> d.uploadTimestamp.Some?)
    && (d.uploadError.Some? ==> !d.s3Uploaded)
  }

  /** The descriptor written for a media message given the relay's URL. */
  function Descriptor(seed: MediaSeed, url: Option<string>, now: string): (d: MediaDescriptor)
    ensures DescriptorConsistent(d)
    ensures d.seed == seed && d.mediaUrl == url
    ensures !d.s3Uploaded ==> d.uploadTimestamp.None? && (url.None? || url == Some(""))
    ensures !d.s3Uploaded ==> (d.uploadError == Some(UploadFailed) <==> Present(seed.id))
    ensures d.s3Uploaded ==> d.uploadTimestamp == Some(now) && d.uploadError.None?
  {
    var uploaded := Present(url);
    MediaDescriptor(seed, url, uploaded,
      if uploaded then Some(now) else None,
      if !uploaded && Present(seed.id) then Some(UploadFailed) else None)
  }

  /** The row stored for message `m` given its answers. */
  function RowOf(m: RawMessage, ctx: TenantContext, a: Answers): (row: MessageRow)
    requires a.isoTime.Some?
    ensures row.id == m.id && row.senderId == m.from && row.receiverId == ctx.tenantId
    ensures !row.isSentByMe && !row.isRead
    ensures row.messageType == m.kind && row.content == Classify(m).content
    ensures row.timestamp == a.isoTime.value
    ensures row.mediaData.Some? <==> Classify(m).media.Some?
    ensures row.mediaData.Some? ==>
              && row.mediaData.value.seed == Classify(m).media.value
              && row.mediaData.value.seed.kind == row.messageType
              && DescriptorConsistent(row.mediaData.value)
    ensures row.mediaData.Some? && row.mediaData.value.s3Uploaded ==>
              RelayAttempted(Classify(m).media, ctx.accessToken) && AllDigits(Classify(m).media.value.id.value)
  {
    var c := Classify(m);
    var url := RelayUrl(c.media, ctx.accessToken, a);
    MessageRow(m.id, m.from, ctx.tenantId, c.content, a.isoTime.value, false, false, c.messageType,
      if c.media.Some? then Some(Descriptor(c.media.value, url, a.now)) else None)
  }

  // ---------------------------------------------------------------------------
  // The per-message step and the whole loop, as functions

  /** The contact is in place for the message: found by the lookup, or inserted
      (which fails on the database's error or on an existing row with that id). */
  predicate ContactReady(users: map<string, Contact>, phone: string, a: Answers) {
    (a.lookupOk && phone in users) || (phone !in users && a.userWriteOk)
  }

  /** The state the loop carries: the two tables and whether an exception ended it. */
  datatype Run = Run(users: map<string, Contact>, messages: seq<MessageRow>, aborted: bool)

  function UsersAfter(users: map<string, Contact>, cs: seq<WaContact>, phone: string, a: Answers): map<string, Contact>
    requires a.isoTime.Some?
  {
    if !(a.lookupOk && phone in users) then
      if phone !in users && a.userWriteOk then users[phone := Contact(ContactName(cs, phone), None, None, a.isoTime.value)]
      else users
    else if a.userWriteOk then users[phone := users[phone].(lastActive := a.isoTime.value)]
    else users
  }

  /** One message: an invalid time ends the request; a failed contact insert skips the
      message; otherwise the row is inserted unless the insert fails. */
  function Step(r: Run, ctx: TenantContext, m: RawMessage, a: Answers): Run {
    if r.aborted then r
    else if a.isoTime.None? then r.(aborted := true)
    else if !ContactReady(r.users, m.from, a) then r
    else
      var users := UsersAfter(r.users, ctx.contacts, m.from, a);
      if a.messageInsertOk && !IdTaken(r.messages, m.id) then Run(users, r.messages + [RowOf(m, ctx, a)], false)
      else Run(users, r.messages, false)
  }

  /** A row is written for the message exactly when the request is still running, the
      time is valid, the contact is in place, and the insert succeeds. The media
      answers play no part. */
  predicate Persists(r: Run, m: RawMessage, a: Answers) {
    !r.aborted && a.isoTime.Some? && ContactReady(r.users, m.from, a) && a.messageInsertOk && !IdTaken(r.messages, m.id)
  }

  lemma StepRows(r: Run, ctx: TenantContext, m: RawMessage, a: Answers)
    ensures Step(r, ctx, m, a).messages == r.messages + (if Persists(r, m, a) then [RowOf(m, ctx, a)] else [])
    ensures Step(r, ctx, m, a).aborted <==> r.aborted || a.isoTime.None?
  {
  }

  /** The loop over `msgs`, answer `i` belonging to message `i`. */
  function ProcessAll(r0: Run, ctx: TenantContext, msgs: seq<RawMessage>, oracle: nat -> Answers): Run
    decreases |msgs|
  {
    if msgs == [] then r0
    else Step(ProcessAll(r0, ctx, msgs[..|msgs| - 1], oracle), ctx, msgs[|msgs| - 1], oracle(|msgs| - 1))
  }

  /** The positions of the messages whose rows were written, in envelope order. */
  function PersistedIndices(r0: Run, ctx: TenantContext, msgs: seq<RawMessage>, oracle: nat -> Answers): seq<nat>
    decreases |msgs|
  {
    if msgs == [] then []
    else
      var n := |msgs| - 1;
      var before := PersistedIndices(r0, ctx, msgs[..n], oracle);
      if Persists(ProcessAll(r0, ctx, msgs[..n], oracle), msgs[n], oracle(n)) then before + [n] else before
  }

  /** Every new row belongs to one message of the envelope, in envelope order, and is
      that message's row: attributed to the resolved tenant, sent by the message's
      sender, unread, incoming, with the classifier's type and content. Old rows stay. */
  lemma {:induction false} ProcessAllRows(r0: Run, ctx: TenantContext, msgs: seq<RawMessage>, oracle: nat -> Answers)
    ensures var r := ProcessAll(r0, ctx, msgs, oracle);
            var p := PersistedIndices(r0, ctx, msgs, oracle);
            && |r.messages| == |r0.messages| + |p|
            && r.messages[..|r0.messages|] == r0.messages
            && (forall k, l :: 0 <= k < l < |p| ==> p[k] < p[l])
            && (forall k :: 0 <= k < |p| ==>
                  && p[k] < |msgs| && oracle(p[k]).isoTime.Some?
                  && r.messages[|r0.messages| + k] == RowOf(msgs[p[k]], ctx, oracle(p[k])))
  {
    if msgs != [] {
      var n := |msgs| - 1;
      ProcessAllRows(r0, ctx, msgs[..n], oracle);
      StepRows(ProcessAll(r0, ctx, msgs[..n], oracle), ctx, msgs[n], oracle(n));
    }
  }

  /** The request ends early only on an invalid message time. */
  lemma {:induction false} ProcessAllAborts(r0: Run, ctx: TenantContext, msgs: seq<RawMessage>, oracle: nat -> Answers)
    requires !r0.aborted
    ensures ProcessAll(r0, ctx, msgs, oracle).aborted <==> exists j :: 0 <= j < |msgs| && oracle(j).isoTime.None?
  {
    if msgs != [] {
      var n := |msgs| - 1;
      ProcessAllAborts(r0, ctx, msgs[..n], oracle);
      if oracle(n).isoTime.None? {
        assert exists j :: 0 <= j < |msgs| && oracle(j).isoTime.None?;
      }
      if exists j :: 0 <= j < |msgs| && oracle(j).isoTime.None? {
        var j :| 0 <= j < |msgs| && oracle(j).isoTime.None?;
        if j < n {
          assert exists j :: 0 <= j < |msgs[..n]| && oracle(j).isoTime.None?;
        }
      }
    }
  }

  /** Once the request has ended, later messages change nothing. */
  lemma {:induction false} AbortedStays(r0: Run, ctx: TenantContext, msgs: seq<RawMessage>, i: nat, oracle: nat -> Answers)
    requires i <= |msgs|
    requires ProcessAll(r0, ctx, msgs[..i], oracle).aborted
    ensures ProcessAll(r0, ctx, msgs, oracle) == ProcessAll(r0, ctx, msgs[..i], oracle)
    decreases |msgs| - i
  {
    if i < |msgs| {
      assert msgs[..i + 1][..i] == msgs[..i];
      AbortedStays(r0, ctx, msgs, i + 1, oracle);
    } else {
      assert msgs[..i] == msgs;
    }
  }

  /** One step on the contacts table: only the sender's row may change; an existing
      row keeps every column but `last_active`; a new row is named after the profile
      name for the phone (or the phone itself). */
  lemma StepUsers(r: Run, ctx: TenantContext, m: RawMessage, a: Answers)
    ensures var u := Step(r, ctx, m, a).users;
            && r.users.Keys <= u.Keys && u.Keys <= r.users.Keys + {m.from}
            && (forall p :: p in r.users ==> u[p] == r.users[p].(lastActive := u[p].lastActive))
            && (forall p :: p in u && p != m.from ==> p in r.users && u[p] == r.users[p])
            && (m.from in u && m.from !in r.users ==>
                  u[m.from] == Contact(ContactName(ctx.contacts, m.from), None, None, a.isoTime.value))
  {
  }

  /** Contacts over the whole loop: an existing contact keeps every column but
      `last_active`; a contact that appears is named after the envelope's profile name
      for its phone (or the phone itself), has no custom or WhatsApp name, and sent one
      of the messages. */
  lemma {:induction false} ProcessAllContacts(r0: Run, ctx: TenantContext, msgs: seq<RawMessage>, oracle: nat -> Answers)
    ensures var r := ProcessAll(r0, ctx, msgs, oracle);
            && r0.users.Keys <= r.users.Keys
            && (forall p :: p in r0.users ==> r.users[p] == r0.users[p].(lastActive := r.users[p].lastActive))
            && (forall p :: p in r.users && p !in r0.users ==>
                  && r.users[p].name == ContactName(ctx.contacts, p)
                  && r.users[p].customName.None? && r.users[p].whatsappName.None?
                  && exists j :: 0 <= j < |msgs| && msgs[j].from == p)
  {
    if msgs != [] {
      var n := |msgs| - 1;
      ProcessAllContacts(r0, ctx, msgs[..n], oracle);
      var prev := ProcessAll(r0, ctx, msgs[..n], oracle);
      StepUsers(prev, ctx, msgs[n], oracle(n));
      var r := ProcessAll(r0, ctx, msgs, oracle);
      assert r == Step(prev, ctx, msgs[n], oracle(n));
      forall p | p in r.users && p !in r0.users
        ensures && r.users[p].name == ContactName(ctx.contacts, p)
                && r.users[p].customName.None? && r.users[p].whatsappName.None?
                && exists j :: 0 <= j < |msgs| && msgs[j].from == p
      {
        if p in prev.users {
          var j :| 0 <= j < |msgs[..n]| && msgs[..n][j].from == p;
          assert msgs[j].from == p;
        } else {
          assert msgs[n].from == p;
        }
      }
    }
  }

  /** Which rows are written does not depend on the media relay: replacing the answers
      of the provider's media endpoint and of the upload leaves the same messages
      persisted and the same contacts. */
  lemma {:induction false} MediaIndependence(r0: Run, ctx: TenantContext, msgs: seq<RawMessage>, o1: nat -> Answers, o2: nat -> Answers)
    requires forall j :: 0 <= j < |msgs| ==>
               o1(j).(graphUrl := o2(j).graphUrl, uploadUrl := o2(j).uploadUrl, now := o2(j).now) == o2(j)
    ensures PersistedIndices(r0, ctx, msgs, o1) == PersistedIndices(r0, ctx, msgs, o2)
    ensures ProcessAll(r0, ctx, msgs, o1).users == ProcessAll(r0, ctx, msgs, o2).users
    ensures ProcessAll(r0, ctx, msgs, o1).aborted == ProcessAll(r0, ctx, msgs, o2).aborted
    ensures |ProcessAll(r0, ctx, msgs, o1).messages| == |ProcessAll(r0, ctx, msgs, o2).messages|
    ensures forall k :: 0 <= k < |ProcessAll(r0, ctx, msgs, o1).messages| ==>
              ProcessAll(r0, ctx, msgs, o1).messages[k].id == ProcessAll(r0, ctx, msgs, o2).messages[k].id
  {
    if msgs != [] {
      var n := |msgs| - 1;
      MediaIndependence(r0, ctx, msgs[..n], o1, o2);
      var p1 := ProcessAll(r0, ctx, msgs[..n], o1);
      var p2 := ProcessAll(r0, ctx, msgs[..n], o2);
      assert IdTaken(p1.messages, msgs[n].id) == IdTaken(p2.messages, msgs[n].id) by {
        if IdTaken(p1.messages, msgs[n].id) {
          var k :| 0 <= k < |p1.messages| && p1.messages[k].id == msgs[n].id;
          assert p2.messages[k].id == msgs[n].id;
        }
        if IdTaken(p2.messages, msgs[n].id) {
          var k :| 0 <= k < |p2.messages| && p2.messages[k].id == msgs[n].id;
          assert p1.messages[k].id == msgs[n].id;
        }
      }
      assert o1(n).(graphUrl := o2(n).graphUrl, uploadUrl := o2(n).uploadUrl, now := o2(n).now) == o2(n);
      StepRows(p1, ctx, msgs[n], o1(n));
      StepRows(p2, ctx, msgs[n], o2(n));
    }
  }

  /** The step keeps message ids distinct: a repeated id is never inserted twice, so
      redelivering an envelope adds no second row for any message. */
  lemma StepKeepsIdsDistinct(r: Run, ctx: TenantContext, m: RawMessage, a: Answers)
    requires DistinctMessageIds(r.messages)
    ensures DistinctMessageIds(Step(r, ctx, m, a).messages)
  {
    StepRows(r, ctx, m, a);
  }

  // ---------------------------------------------------------------------------
  // The POST handler

  function ContextOf(t: TenantSettings, env: Envelope): TenantContext {
    TenantContext(t.id, t.accessToken, ContactsOf(env))
  }

  /** The media relay for one message: a provider URL is fetched only for a media id
      and an access token, and the upload is tried only for an all-digit id. */
  method Relay(mediaData: Option<MediaSeed>, accessToken: Option<string>, answers: Answers)
    returns (s3MediaUrl: Option<string>, s3UploadSuccess: bool)
    ensures s3MediaUrl == RelayUrl(mediaData, accessToken, answers)
    ensures s3UploadSuccess <==> Present(s3MediaUrl)
  {
    s3MediaUrl := None;
    s3UploadSuccess := false;
    if mediaData.Some? && Present(mediaData.value.id) && Present(accessToken) {
      var whatsappMediaUrl := answers.graphUrl;
      if Present(whatsappMediaUrl) {
        if AllDigits(mediaData.value.id.value) {
          s3MediaUrl := answers.uploadUrl;
          if Present(s3MediaUrl) {
            s3UploadSuccess := true;
          }
        }
      }
    }
  }

  /** The contact step for one message: look the sender up; insert an unknown sender
      (a failed insert means the message is skipped), or refresh the `last_active` of
      a known one (a failed update is only logged). */
  method UpsertContact(db: Store, contacts: seq<WaContact>, phone: string, answers: Answers) returns (ready: bool)
    requires answers.isoTime.Some?
    modifies db
    ensures ready <==> ContactReady(old(db.users), phone, answers)
    ensures ready ==> db.users == UsersAfter(old(db.users), contacts, phone, answers)
    ensures !ready ==> db.users == old(db.users)
    ensures db.tenants == old(db.tenants) && db.messages == old(db.messages)
  {
    var existingUser := answers.lookupOk && phone in db.users;
    if !existingUser {
      if !answers.userWriteOk || phone in db.users {
        return false;
      }
      db.users := db.users[phone := Contact(ContactName(contacts, phone), None, None, answers.isoTime.value)];
    } else if answers.userWriteOk {
      db.users := db.users[phone := db.users[phone].(lastActive := answers.isoTime.value)];
    }
    return true;
  }

  /** The POST handler. `body` is None when the request body is not JSON. */
  method Deliver(db: Store, body: Option<Envelope>, oracle: nat -> Answers) returns (resp: Response)
    requires db.Valid()
    modifies db
    ensures db.Valid()
    ensures db.tenants == old(db.tenants)
    ensures body.None? ==> resp == ServerError && db.users == old(db.users) && db.messages == old(db.messages)
    ensures body.Some? && ResolveTenant(old(db.tenants), body.value).None? ==>
              resp == Ok && db.users == old(db.users) && db.messages == old(db.messages)
    ensures body.Some? && ResolveTenant(old(db.tenants), body.value).Some? ==>
              var t := old(db.tenants)[ResolveTenant(old(db.tenants), body.value).value];
              var r := ProcessAll(Run(old(db.users), old(db.messages), false), ContextOf(t, body.value), MessagesOf(body.value), oracle);
              && db.users == r.users && db.messages == r.messages
              && resp == (if r.aborted then ServerError else Ok)
  {
    if body.None? {
      return ServerError;
    }
    var env := body.value;
    var channel := ChannelOf(env);
    if channel.None? {
      return Ok;
    }
    var found := SingleRow(db.tenants, PhoneNumberIdColumn, channel.value);
    if found.None? {
      return Ok;
    }
    var ctx := ContextOf(db.tenants[found.value], env);
    var messages := MessagesOf(env);
    ghost var r0 := Run(db.users, db.messages, false);
    var i := 0;
    while i < |messages|
      invariant 0 <= i <= |messages|
      invariant db.tenants == old(db.tenants)
      invariant Run(db.users, db.messages, false) == ProcessAll(r0, ctx, messages[..i], oracle)
      invariant DistinctMessageIds(db.messages)
    {
      var message := messages[i];
      var answers := oracle(i);
      ghost var before := Run(db.users, db.messages, false);
      assert messages[..i + 1][..i] == messages[..i];
      assert ProcessAll(r0, ctx, messages[..i + 1], oracle) == Step(before, ctx, message, answers);
      StepKeepsIdsDistinct(Run(db.users, db.messages, false), ctx, message, answers);
      if answers.isoTime.None? {
        AbortedStays(r0, ctx, messages, i + 1, oracle);
        return ServerError;
      }
      var messageTimestamp := answers.isoTime.value;
      var classified := Classify(message);
      var mediaData := classified.media;

      var s3MediaUrl, s3UploadSuccess := Relay(mediaData, ctx.accessToken, answers);
      var ready := UpsertContact(db, ctx.contacts, message.from, answers);
      if !ready {
        i := i + 1;
        continue;
      }

      var row := MessageRow(message.id, message.from, ctx.tenantId, classified.content, messageTimestamp,
        false, false, classified.messageType,
        if mediaData.Some? then
          Some(MediaDescriptor(mediaData.value, s3MediaUrl, s3UploadSuccess,
            if s3UploadSuccess then Some(answers.now) else None,
            if !s3UploadSuccess && Present(mediaData.value.id) then Some(UploadFailed) else None))
        else None);
      assert row == RowOf(message, ctx, answers);
      if answers.messageInsertOk && !IdTaken(db.messages, message.id) {
        db.messages := db.messages + [row];
      }
      i := i + 1;
    }
    assert messages[..i] == messages;
    return Ok;
  }
}
