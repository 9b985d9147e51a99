/** The update-name route (app/api/users/update-name/route.ts, POST): validates a user
    id against the international phone number pattern and a custom name against the
    length limit, then asks the database function `update_user_custom_name`. */
module UpdateName {
  import opened Common
  import CreateChat

  datatype Request = Request(userId: Option<string>, customName: Option<string>)

  datatype Decision =
    | Reject(status: nat, error: string)
    | CallStore(userId: string, newName: Option<string>)

  /** `/^\+?[1-9]\d{1,14}$/`. An id that starts with a plus can match only by consuming
      it with `\+?`, since `[1-9]` does not match a plus; so the pattern reads the
      digits after an optional plus (`WithoutPlus`), the first of them non-zero, two to
      fifteen in all. */
  predicate MatchesUserId(s: string) {
    var d := CreateChat.WithoutPlus(s);
    2 <= |d| <= 15 && AllDigits(d) && d[0] != '0'
  }

  /** Every string the pattern describes is accepted: an optional plus, a digit from
      one to nine, then one to fourteen digits. */
  lemma PatternAccepts(plus: bool, lead: char, rest: string)
    requires '1' <= lead <= '9' && AllDigits(rest) && 1 <= |rest| <= 14
    ensures MatchesUserId((if plus then "+" else "") + [lead] + rest)
  {
    var s := (if plus then "+" else "") + [lead] + rest;
    assert CreateChat.WithoutPlus(s) == [lead] + rest;
  }

  /** And only those: an accepted id splits into that shape. */
  lemma PatternDecomposes(s: string)
    requires MatchesUserId(s)
    ensures var k := if s[0] == '+' then 1 else 0;
      && s[..k] == (if k == 1 then "+" else "")
      && s == s[..k] + [s[k]] + s[k + 1..]
      && '1' <= s[k] <= '9'
      && AllDigits(s[k + 1..]) && 1 <= |s[k + 1..]| <= 14
  {
  }

  /** The checks in the handler's order: authentication, a readable body, a user id at
      all, its pattern, the name length. */
  function Decide(user: Option<CreateChat.AuthUser>, body: Option<Request>): (d: Decision)
    ensures user.None? ==> d == Reject(401, "Unauthorized")
    ensures user.Some? && body.None? ==> d == Reject(500, "Internal server error")
    ensures user.Some? && body.Some? ==>
              (d == Reject(400, "Missing userId parameter") <==> !Present(body.value.userId))
    ensures user.Some? && body.Some? && Present(body.value.userId) ==>
              (d == Reject(400, "Invalid phone number format") <==> !MatchesUserId(body.value.userId.value))
    ensures user.Some? && body.Some? && Present(body.value.userId) && MatchesUserId(body.value.userId.value) ==>
              (d == Reject(400, "Custom name too long (max 100 characters)") <==> CreateChat.NameTooLong(body.value.customName))
    ensures d.CallStore? <==>
              && user.Some? && body.Some? && Present(body.value.userId)
              && MatchesUserId(body.value.userId.value)
              && !CreateChat.NameTooLong(body.value.customName)
    ensures d.CallStore? ==>
              && d.userId == body.value.userId.value
              && d.newName == CreateChat.NameArgument(body.value.customName)
    ensures d.Reject? ==> d.status in {400, 401, 500}
  {
    if user.None? then Reject(401, "Unauthorized")
    else if body.None? then Reject(500, "Internal server error")
    else
      var req := body.value;
      if !Present(req.userId) then Reject(400, "Missing userId parameter")
      else if !MatchesUserId(req.userId.value) then Reject(400, "Invalid phone number format")
      else if CreateChat.NameTooLong(req.customName) then Reject(400, "Custom name too long (max 100 characters)")
      else CallStore(req.userId.value, CreateChat.NameArgument(req.customName))
  }

  /** The answer of `update_user_custom_name`: an error, or data whose truthiness says
      whether a user was updated. */
  datatype RpcResult = RpcError(message: string) | RpcData(truthy: bool)

  datatype Reply =
    | Failed(status: nat, error: string)
    | Updated(userId: string, customName: Option<string>, timestamp: string)

  function Respond(userId: string, newName: Option<string>, rpc: RpcResult, now: string): (r: Reply)
    ensures rpc.RpcError? ==> r == Failed(500, "Failed to update user name")
    ensures rpc == RpcData(false) ==> r == Failed(404, "User not found")
    ensures r.Updated? <==> rpc == RpcData(true)
    ensures r.Updated? ==> r == Updated(userId, newName, now)
  {
    match rpc
    case RpcError(_) => Failed(500, "Failed to update user name")
    case RpcData(truthy) => if truthy then Updated(userId, newName, now) else Failed(404, "User not found")
  }

  function Handle(user: Option<CreateChat.AuthUser>, body: Option<Request>, rpc: (string, Option<string>) -> RpcResult, now: string): Reply {
    match Decide(user, body)
    case Reject(status, error) => Failed(status, error)
    case CallStore(id, name) => Respond(id, name, rpc(id, name), now)
  }

  /** A successful update echoes the id it was given and the name it stored, `null`
      for an empty name, and only after the store reported an updated row; a rejected
      request gets the same reply whatever the store would have said. */
  lemma HandleEchoesStoredName(user: Option<CreateChat.AuthUser>, body: Option<Request>,
                               rpc1: (string, Option<string>) -> RpcResult, rpc2: (string, Option<string>) -> RpcResult, now: string)
    ensures Decide(user, body).Reject? ==> Handle(user, body, rpc1, now) == Handle(user, body, rpc2, now)
    ensures Handle(user, body, rpc1, now).Updated? ==>
              var r := Handle(user, body, rpc1, now);
              && body.Some? && Present(body.value.userId)
              && r.userId == body.value.userId.value && MatchesUserId(r.userId)
              && (r.customName.None? <==> !Present(body.value.customName))
              && rpc1(r.userId, r.customName) == RpcData(true)
  {
  }

  /** The chat routes disagree on ids: create-chat stores the cleaned digits without a
      plus and accepts a leading zero, while update-name refuses a leading zero. A chat
      created by create-chat can be renamed, with or without a plus in front of its id,
      exactly when its stored id does not start with zero. */
  lemma CreatedChatRenamable(user: Option<CreateChat.AuthUser>, body: Option<CreateChat.Request>)
    requires CreateChat.Decide(user, body).CallStore?
    ensures var id := CreateChat.Decide(user, body).phone;
      && (MatchesUserId(id) <==> id[0] != '0')
      && (MatchesUserId("+" + id) <==> id[0] != '0')
  {
    var id := CreateChat.Decide(user, body).phone;
    assert CreateChat.WithoutPlus("+" + id) == id;
  }

  /** An instance: the number 0123456789 gets a chat but can never be renamed. */
  lemma LeadingZeroChatNotRenamable()
    ensures CreateChat.Decide(Some(CreateChat.AuthUser("15550001111")),
                              Some(CreateChat.Request(Some("0123456789"), None))).CallStore?
    ensures !MatchesUserId("0123456789")
  {
    var phone := "0123456789";
    assert AllDigits(phone);
    assert |phone| == 10;
    CreateChat.DigitsGetChat(CreateChat.AuthUser("15550001111"), phone);
  }
}
