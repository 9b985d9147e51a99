/** The create-chat route (app/api/users/create-chat/route.ts, POST): cleans and
    validates a phone number, refuses a chat with oneself and over-long names, and only
    then asks the database function `create_or_get_user`, whose answer it reshapes. */
module CreateChat {
  import opened Common

  /** The signed-in user; `None` when authentication failed. */
  datatype AuthUser = AuthUser(id: string)

  /** The parsed request body. */
  datatype Request = Request(phoneNumber: Option<string>, customName: Option<string>)

  /** What the handler decides before it touches the store. */
  datatype Decision =
    | Reject(status: nat, error: string)
    | CallStore(phone: string, userName: Option<string>)

  const MaxNameLength := 100

  /** `replace(/\s+/g, '')`. */
  function RemoveSpaces(s: string): (r: string)
    ensures forall i :: 0 <= i < |r| ==> !IsSpace(r[i])
    ensures |r| <= |s|
  {
    if s == [] then [] else (if IsSpace(s[0]) then [] else [s[0]]) + RemoveSpaces(s[1..])
  }

  /** `replace(/[^\d]/g, '')`. */
  function KeepDigits(s: string): (r: string)
    ensures AllDigits(r) && |r| <= |s|
  {
    if s == [] then [] else (if IsDigit(s[0]) then [s[0]] else []) + KeepDigits(s[1..])
  }

  /** The cleaning the handler applies: white space, then every other non-digit. */
  function CleanPhone(s: string): (r: string)
    ensures AllDigits(r) && |r| <= |s|
  {
    KeepDigits(RemoveSpaces(s))
  }

  /** Removing white space first makes no difference: cleaning keeps exactly the
      digits of the input, in order. */
  lemma {:induction false} CleanPhoneKeepsDigits(s: string)
    ensures CleanPhone(s) == KeepDigits(s)
  {
    if s != [] {
      CleanPhoneKeepsDigits(s[1..]);
      var rest := RemoveSpaces(s[1..]);
      if !IsSpace(s[0]) {
        assert RemoveSpaces(s) == [s[0]] + rest;
        assert ([s[0]] + rest)[1..] == rest;
        assert KeepDigits([s[0]] + rest) == (if IsDigit(s[0]) then [s[0]] else []) + KeepDigits(rest);
      } else {
        assert RemoveSpaces(s) == rest;
      }
    }
  }

  /** One character is kept exactly when it is a digit. */
  lemma KeepDigitsChar(c: char)
    ensures KeepDigits([c]) == if IsDigit(c) then [c] else []
  {
    assert [c][1..] == [];
  }

  /** The digits are kept in order: cleaning a concatenation concatenates the cleaned
      parts. With `KeepDigitsChar` this fixes the result character by character. */
  lemma {:induction false} KeepDigitsAppend(a: string, b: string)
    ensures KeepDigits(a + b) == KeepDigits(a) + KeepDigits(b)
  {
    if a == [] {
      assert a + b == b;
    } else {
      assert (a + b)[0] == a[0];
      assert (a + b)[1..] == a[1..] + b;
      KeepDigitsAppend(a[1..], b);
    }
  }

  /** Every digit of the input is kept as often as it occurs, and nothing else is. */
  lemma {:induction false} KeepDigitsCounts(s: string)
    ensures forall c :: multiset(KeepDigits(s))[c] == (if IsDigit(c) then multiset(s)[c] else 0)
  {
    if s != [] {
      KeepDigitsCounts(s[1..]);
      assert s == [s[0]] + s[1..];
      assert multiset(s) == multiset([s[0]]) + multiset(s[1..]);
    }
  }

  /** Separators inside a number are dropped and every digit stays in place. */
  lemma CleanPhoneExample()
    ensures CleanPhone("1-10") == "110"
  {
    CleanPhoneKeepsDigits("1-10");
    KeepDigitsAppend("1-", "10");
    KeepDigitsAppend("1", "-");
    KeepDigitsAppend("1", "0");
    KeepDigitsChar('1');
    KeepDigitsChar('-');
    KeepDigitsChar('0');
    assert "1-" + "10" == "1-10";
    assert "1" + "-" == "1-";
    assert "1" + "0" == "10";
  }

  /** A string of digits is left alone; so cleaning twice is cleaning once. */
  lemma {:induction false} KeepDigitsOfDigits(s: string)
    requires AllDigits(s)
    ensures KeepDigits(s) == s
  {
    if s != [] {
      KeepDigitsOfDigits(s[1..]);
    }
  }

  lemma CleanPhoneIdempotent(s: string)
    ensures CleanPhone(CleanPhone(s)) == CleanPhone(s)
  {
    CleanPhoneKeepsDigits(CleanPhone(s));
    KeepDigitsOfDigits(CleanPhone(s));
  }

  /** Each character of the cleaned number is a digit of the input, and each digit of
      the input is kept. */
  lemma {:induction false} KeepDigitsMembers(s: string, c: char)
    ensures c in KeepDigits(s) <==> c in s && IsDigit(c)
  {
    if s != [] {
      KeepDigitsMembers(s[1..], c);
      assert s == [s[0]] + s[1..];
    }
  }

  /** `/^\d{10,15}$/` on a cleaned number. */
  predicate ValidPhone(clean: string) {
    AllDigits(clean) && 10 <= |clean| <= 15
  }

  /** `id.replace(/^\+/, '')`: one leading plus sign removed. */
  function WithoutPlus(id: string): (r: string)
    ensures |id| > 0 && id[0] == '+' ==> r == id[1..]
    ensures !(|id| > 0 && id[0] == '+') ==> r == id
  {
    if |id| > 0 && id[0] == '+' then id[1..] else id
  }

  predicate IsSelf(clean: string, user: AuthUser) {
    clean == user.id || clean == WithoutPlus(user.id)
  }

  predicate NameTooLong(customName: Option<string>) {
    Present(customName) && |customName.value| > MaxNameLength
  }

  /** `customName || null`. */
  function NameArgument(customName: Option<string>): (r: Option<string>)
    ensures r.Some? <==> Present(customName)
    ensures r.Some? ==> r == customName
  {
    if Present(customName) then customName else None
  }

  /** The checks in the handler's order: authentication, a readable body, a phone
      number at all, its format, not oneself, the name length. */
  function Decide(user: Option<AuthUser>, body: Option<Request>): (d: Decision)
    ensures user.None? ==> d == Reject(401, "Unauthorized")
    ensures user.Some? && body.None? ==> d == Reject(500, "Internal server error")
    ensures user.Some? && body.Some? ==>
              (d == Reject(400, "Missing phoneNumber parameter") <==> !Present(body.value.phoneNumber))
    ensures user.Some? && body.Some? && Present(body.value.phoneNumber) ==>
              (d == Reject(400, "Invalid phone number format") <==> !ValidPhone(CleanPhone(body.value.phoneNumber.value)))
    ensures user.Some? && body.Some? && Present(body.value.phoneNumber) && ValidPhone(CleanPhone(body.value.phoneNumber.value)) ==>
              (d == Reject(400, "Cannot create chat with yourself") <==> IsSelf(CleanPhone(body.value.phoneNumber.value), user.value))
    ensures user.Some? && body.Some? && Present(body.value.phoneNumber) && ValidPhone(CleanPhone(body.value.phoneNumber.value))
            && !IsSelf(CleanPhone(body.value.phoneNumber.value), user.value) ==>
              (d == Reject(400, "Custom name too long") <==> NameTooLong(body.value.customName))
    ensures d.CallStore? <==>
              && user.Some? && body.Some? && Present(body.value.phoneNumber)
              && ValidPhone(CleanPhone(body.value.phoneNumber.value))
              && !IsSelf(CleanPhone(body.value.phoneNumber.value), user.value)
              && !NameTooLong(body.value.customName)
    ensures d.CallStore? ==>
              && d.phone == CleanPhone(body.value.phoneNumber.value)
              && d.userName == NameArgument(body.value.customName)
    ensures d.Reject? ==> d.status in {400, 401, 500}
  {
    if user.None? then Reject(401, "Unauthorized")
    else if body.None? then Reject(500, "Internal server error")
    else
      var req := body.value;
      if !Present(req.phoneNumber) then Reject(400, "Missing phoneNumber parameter")
      else
        var clean := CleanPhone(req.phoneNumber.value);
        if !ValidPhone(clean) then Reject(400, "Invalid phone number format")
        else if IsSelf(clean, user.value) then Reject(400, "Cannot create chat with yourself")
        else if NameTooLong(req.customName) then Reject(400, "Custom name too long")
        else CallStore(clean, NameArgument(req.customName))
  }

  /** A self-chat refusal names the user's own number, written with or without a
      leading plus, whether or not the user's id carries one. */
  lemma SelfChatRefused(user: AuthUser, phone: string, name: Option<string>)
    requires ValidPhone(WithoutPlus(user.id))
    ensures CleanPhone(phone) == WithoutPlus(user.id) ==>
              Decide(Some(user), Some(Request(Some(phone), name))) == Reject(400, "Cannot create chat with yourself")
    ensures Decide(Some(user), Some(Request(Some(WithoutPlus(user.id)), name))) == Reject(400, "Cannot create chat with yourself")
    ensures Decide(Some(user), Some(Request(Some("+" + WithoutPlus(user.id)), name))) == Reject(400, "Cannot create chat with yourself")
  {
    var w := WithoutPlus(user.id);
    if CleanPhone(phone) == w {
      RefusedWhenOwn(user, phone, name);
    }
    CleanPhoneKeepsDigits(w);
    KeepDigitsOfDigits(w);
    RefusedWhenOwn(user, w, name);
    CleanPhoneKeepsDigits("+" + w);
    assert ("+" + w)[1..] == w;
    RefusedWhenOwn(user, "+" + w, name);
  }

  lemma RefusedWhenOwn(user: AuthUser, phone: string, name: Option<string>)
    requires ValidPhone(WithoutPlus(user.id)) && CleanPhone(phone) == WithoutPlus(user.id)
    ensures Decide(Some(user), Some(Request(Some(phone), name))) == Reject(400, "Cannot create chat with yourself")
  {
    assert phone != "" by {
      assert CleanPhone("") == "";
    }
  }

  /** A number already written as ten to fifteen digits, not the user's own, always
      reaches the store unchanged. */
  lemma DigitsGetChat(user: AuthUser, phone: string)
    requires ValidPhone(phone) && !IsSelf(phone, user)
    ensures Decide(Some(user), Some(Request(Some(phone), None))) == CallStore(phone, None)
  {
    CleanPhoneKeepsDigits(phone);
    KeepDigitsOfDigits(phone);
  }

  /** One row of `create_or_get_user`. */
  datatype UserRecord = UserRecord(
    id: string,
    displayName: Option<string>,
    customName: Option<string>,
    whatsappName: Option<string>,
    lastActive: string,
    isNew: bool)

  datatype RpcResult = RpcError(message: string) | RpcRows(rows: seq<UserRecord>)

  /** The chat list entry returned to the client. */
  datatype ChatSummary = ChatSummary(
    id: string,
    name: Option<string>,
    customName: Option<string>,
    whatsappName: Option<string>,
    lastActive: string,
    unreadCount: nat,
    lastMessage: string,
    lastMessageTime: string,
    lastMessageType: string,
    lastMessageSender: string)

  datatype Reply =
    | Failed(status: nat, error: string)
    | Created(user: ChatSummary, isNew: bool, timestamp: string)

  /** The reply once the store has answered. */
  function Respond(rpc: RpcResult, now: string): (r: Reply)
    ensures rpc.RpcError? ==> r == Failed(500, "Failed to create chat")
    ensures rpc.RpcRows? && |rpc.rows| == 0 ==> r == Failed(500, "Failed to create or retrieve user")
    ensures r.Created? <==> rpc.RpcRows? && |rpc.rows| > 0
    ensures r.Created? ==>
              && r.user.id == rpc.rows[0].id && r.isNew == rpc.rows[0].isNew
              && r.user.unreadCount == 0 && r.user.lastMessage == ""
              && r.user.lastMessageTime == r.user.lastActive == rpc.rows[0].lastActive
              && r.user.lastMessageType == "text" && r.user.lastMessageSender == ""
              && r.timestamp == now
  {
    match rpc
    case RpcError(_) => Failed(500, "Failed to create chat")
    case RpcRows(rows) =>
      if |rows| == 0 then Failed(500, "Failed to create or retrieve user")
      else
        var u := rows[0];
        Created(ChatSummary(u.id, u.displayName, u.customName, u.whatsappName, u.lastActive, 0, "", u.lastActive, "text", ""),
          u.isNew, now)
  }

  /** The whole handler; `rpc` is the database function, asked with the cleaned number
      and the name argument. */
  function Handle(user: Option<AuthUser>, body: Option<Request>, rpc: (string, Option<string>) -> RpcResult, now: string): Reply {
    match Decide(user, body)
    case Reject(status, error) => Failed(status, error)
    case CallStore(phone, name) => Respond(rpc(phone, name), now)
  }

  /** The store is consulted only when every check passes: a rejected request gets the
      same reply whatever the store would have said. A created chat passed every check
      and names the row the store returned for the cleaned number. */
  lemma HandleConsultsStoreLast(user: Option<AuthUser>, body: Option<Request>,
                                rpc1: (string, Option<string>) -> RpcResult, rpc2: (string, Option<string>) -> RpcResult, now: string)
    ensures Decide(user, body).Reject? ==> Handle(user, body, rpc1, now) == Handle(user, body, rpc2, now)
    ensures Handle(user, body, rpc1, now).Created? ==>
              && Decide(user, body).CallStore?
              && ValidPhone(CleanPhone(body.value.phoneNumber.value))
              && Handle(user, body, rpc1, now).user.unreadCount == 0
  {
  }
}
