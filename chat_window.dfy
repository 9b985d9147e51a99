/** The chat window (components/chat/chat-window.tsx): display names and initials,
    unread detection, the day grouping of the message list, and the state the window
    keeps for the composer, the Escape key and media refreshes. */
module ChatWindow {
  import opened Common

  datatype ChatUser = ChatUser(
    id: string,
    name: string,
    customName: Option<string>,
    whatsappName: Option<string>,
    lastActive: string)

  /** A message as the window receives it; `isRead` may be absent. */
  datatype UiMessage = UiMessage(
    id: string,
    content: string,
    timestamp: string,
    isSentByMe: bool,
    isRead: Option<bool>,
    messageType: Option<string>)

  // ---------------------------------------------------------------------------
  // Names

  /** `getDisplayName`: custom name, else WhatsApp name, else name, else the id. */
  function DisplayName(u: ChatUser): string {
    FirstTruthy([u.customName, u.whatsappName, Some(u.name)], u.id)
  }

  lemma DisplayNameChain(u: ChatUser)
    ensures Present(u.customName) ==> DisplayName(u) == u.customName.value
    ensures !Present(u.customName) && Present(u.whatsappName) ==> DisplayName(u) == u.whatsappName.value
    ensures !Present(u.customName) && !Present(u.whatsappName) && u.name != "" ==> DisplayName(u) == u.name
    ensures !Present(u.customName) && !Present(u.whatsappName) && u.name == "" ==> DisplayName(u) == u.id
  {
    var c := [u.customName, u.whatsappName, Some(u.name)];
    assert Present(c[0]) ==> DisplayName(u) == c[0].value;
    assert !Present(c[0]) && Present(c[1]) ==> DisplayName(u) == c[1].value;
    assert !Present(c[0]) && !Present(c[1]) && Present(c[2]) ==> DisplayName(u) == c[2].value;
  }

  /** The avatar initials: the first two characters, upper-cased, of the name, else the
      WhatsApp name, else the id, else "BK". There is always at least one. */
  function Initials(u: ChatUser): (r: string)
    ensures 1 <= |r| <= 2
    ensures !Present(Some(u.name)) && !Present(u.whatsappName) && u.id == "" ==> r == "BK"
    ensures u.name != "" ==> r == Upper(Prefix(u.name, 2))
    ensures u.name == "" && Present(u.whatsappName) ==> r == Upper(Prefix(u.whatsappName.value, 2))
    ensures u.name == "" && !Present(u.whatsappName) && u.id != "" ==> r == Upper(Prefix(u.id, 2))
  {
    var c := [Some(u.name), u.whatsappName, Some(u.id)];
    var src := FirstTruthy(c, "BK");
    assert src != [] by {
      if !(forall i :: 0 <= i < |c| ==> !Present(c[i])) {
        var i :| 0 <= i < |c| && Present(c[i]);
        if Present(c[0]) {
        } else if Present(c[1]) {
          assert forall j :: 0 <= j < 1 ==> !Present(c[j]);
        } else {
          assert forall j :: 0 <= j < 2 ==> !Present(c[j]);
        }
      }
    }
    assert Present(c[0]) ==> src == u.name;
    assert !Present(c[0]) && Present(c[1]) ==> src == u.whatsappName.value by {
      if !Present(c[0]) && Present(c[1]) {
        assert forall j :: 0 <= j < 1 ==> !Present(c[j]);
      }
    }
    assert !Present(c[0]) && !Present(c[1]) && Present(c[2]) ==> src == u.id by {
      if !Present(c[0]) && !Present(c[1]) && Present(c[2]) {
        assert forall j :: 0 <= j < 2 ==> !Present(c[j]);
      }
    }
    Upper(Prefix(src, 2))
  }

  // ---------------------------------------------------------------------------
  // Unread messages

  /** `!is_sent_by_me && !is_read`. */
  predicate IsUnread(m: UiMessage) {
    !m.isSentByMe && !Flag(m.isRead)
  }

  /** `messages.filter(...)` of the unread messages. */
  function UnreadMessages(ms: seq<UiMessage>): (r: seq<UiMessage>)
    ensures |r| <= |ms|
    ensures forall k :: 0 <= k < |r| ==> IsUnread(r[k])
  {
    if ms == [] then [] else (if IsUnread(ms[0]) then [ms[0]] else []) + UnreadMessages(ms[1..])
  }

  /** Every unread message is kept, as often as it occurs, and nothing else is: the
      unread count shown is the number of unread messages. */
  lemma {:induction false} UnreadMessagesCounts(ms: seq<UiMessage>)
    ensures forall m :: multiset(UnreadMessages(ms))[m] == (if IsUnread(m) then multiset(ms)[m] else 0)
  {
    if ms != [] {
      UnreadMessagesCounts(ms[1..]);
      assert ms == [ms[0]] + ms[1..];
      assert multiset(ms) == multiset([ms[0]]) + multiset(ms[1..]);
    }
  }

  /** The filter works message by message and keeps the order: filtering a
      concatenation is concatenating the filtered parts. */
  lemma {:induction false} UnreadMessagesAppend(a: seq<UiMessage>, b: seq<UiMessage>)
    ensures UnreadMessages(a + b) == UnreadMessages(a) + UnreadMessages(b)
  {
    if a == [] {
      assert a + b == b;
    } else {
      var head := if IsUnread(a[0]) then [a[0]] else [];
      assert (a + b)[0] == a[0];
      assert (a + b)[1..] == a[1..] + b;
      assert UnreadMessages(a + b) == head + UnreadMessages(a[1..] + b);
      UnreadMessagesAppend(a[1..], b);
      assert UnreadMessages(a) == head + UnreadMessages(a[1..]);
    }
  }

  /** `messages.findIndex(...)`: the first unread position, or -1 when none is unread. */
  function FirstUnreadIndex(ms: seq<UiMessage>): (i: int)
    ensures -1 <= i < |ms|
    ensures i == -1 <==> forall k :: 0 <= k < |ms| ==> !IsUnread(ms[k])
    ensures i >= 0 ==> IsUnread(ms[i]) && forall k :: 0 <= k < i ==> !IsUnread(ms[k])
  {
    if ms == [] then -1
    else if IsUnread(ms[0]) then 0
    else
      var j := FirstUnreadIndex(ms[1..]);
      if j == -1 then -1 else j + 1
  }

  /** `hasUnreadMessages`. */
  predicate HasUnread(ms: seq<UiMessage>) {
    |UnreadMessages(ms)| > 0
  }

  /** The two ways the window looks for unread messages agree. */
  lemma {:induction false} HasUnreadIff(ms: seq<UiMessage>)
    ensures HasUnread(ms) <==> FirstUnreadIndex(ms) != -1
  {
    if ms != [] {
      HasUnreadIff(ms[1..]);
      if !IsUnread(ms[0]) {
        assert UnreadMessages(ms) == UnreadMessages(ms[1..]);
        assert forall k :: 0 <= k < |ms[1..]| ==> ms[1..][k] == ms[k + 1];
      }
    }
  }

  /** A message is still being sent when its id carries the optimistic prefix. */
  predicate IsOptimistic(m: UiMessage) {
    StartsWith(m.id, "optimistic_")
  }

  // ---------------------------------------------------------------------------
  // Grouping by day. The day key (`new Date(timestamp).toDateString()`) is a
  // parameter: `day` maps each message to it.

  /** The day keys in order of first appearance, which is the key order of the
      grouping object since these keys are never integer-like. */
  function Days(ms: seq<UiMessage>, day: UiMessage -> string): seq<string> {
    if ms == [] then []
    else
      var prev := Days(ms[..|ms| - 1], day);
      var d := day(ms[|ms| - 1]);
      if d in prev then prev else prev + [d]
  }

  /** The messages of day `k`, in their original order. */
  function OfDay(ms: seq<UiMessage>, day: UiMessage -> string, k: string): seq<UiMessage> {
    if ms == [] then []
    else OfDay(ms[..|ms| - 1], day, k) + (if day(ms[|ms| - 1]) == k then [ms[|ms| - 1]] else [])
  }

  /** What the grouped rendering shows: the groups one after another. */
  function Concat(ks: seq<string>, ms: seq<UiMessage>, day: UiMessage -> string): seq<UiMessage> {
    if ks == [] then [] else Concat(ks[..|ks| - 1], ms, day) + OfDay(ms, day, ks[|ks| - 1])
  }

  predicate Distinct(ks: seq<string>) {
    forall i, j :: 0 <= i < j < |ks| ==> ks[i] != ks[j]
  }

  /** `groupedMessages`: the reduce that pushes each message onto the list of its day,
      creating the list on the day's first message. */
  method GroupByDay(messages: seq<UiMessage>, day: UiMessage -> string) returns (keys: seq<string>, groups: map<string, seq<UiMessage>>)
    ensures keys == Days(messages, day)
    ensures forall k :: k in groups <==> k in keys
    ensures forall k :: k in groups ==> groups[k] == OfDay(messages, day, k)
    ensures Distinct(keys) && multiset(Concat(keys, messages, day)) == multiset(messages)
  {
    keys := [];
    groups := map[];
    var i := 0;
    while i < |messages|
      invariant 0 <= i <= |messages|
      invariant keys == Days(messages[..i], day)
      invariant forall k :: k in groups <==> k in keys
      invariant forall k :: k in groups ==> groups[k] == OfDay(messages[..i], day, k)
    {
      var m := messages[i];
      var d := day(m);
      GroupStep(messages, i, day);
      if d in groups {
        groups := groups[d := groups[d] + [m]];
      } else {
        OfDayMembers(messages[..i], day, d);
        groups := groups[d := [m]];
        keys := keys + [d];
      }
      i := i + 1;
    }
    assert messages[..i] == messages;
    DaysDistinct(messages, day);
    GroupingIsPermutation(messages, day);
  }

  /** One more message: its day joins the keys if new, and only its own group grows. */
  lemma GroupStep(ms: seq<UiMessage>, i: nat, day: UiMessage -> string)
    requires i < |ms|
    ensures Days(ms[..i + 1], day) == Days(ms[..i], day) + (if day(ms[i]) in Days(ms[..i], day) then [] else [day(ms[i])])
    ensures forall k :: OfDay(ms[..i + 1], day, k) == OfDay(ms[..i], day, k) + (if day(ms[i]) == k then [ms[i]] else [])
  {
    assert ms[..i + 1][..i] == ms[..i];
  }

  /** Every key appears once, and exactly the days of the messages appear. */
  lemma {:induction false} DaysDistinct(ms: seq<UiMessage>, day: UiMessage -> string)
    ensures Distinct(Days(ms, day))
    ensures forall k :: k in Days(ms, day) <==> exists i :: 0 <= i < |ms| && day(ms[i]) == k
  {
    if ms != [] {
      var p := ms[..|ms| - 1];
      DaysDistinct(p, day);
      forall k
        ensures k in Days(ms, day) <==> exists i :: 0 <= i < |ms| && day(ms[i]) == k
      {
        if k in Days(p, day) {
          var i :| 0 <= i < |p| && day(p[i]) == k;
          assert ms[i] == p[i];
        }
        if exists i :: 0 <= i < |ms| && day(ms[i]) == k {
          var i :| 0 <= i < |ms| && day(ms[i]) == k;
          if i < |p| {
            assert p[i] == ms[i];
          }
        }
      }
    }
  }

  /** A group holds only messages of its day, and a key no message has has an empty
      group. */
  lemma {:induction false} OfDayMembers(ms: seq<UiMessage>, day: UiMessage -> string, k: string)
    ensures forall x :: x in OfDay(ms, day, k) ==> day(x) == k
    ensures k !in Days(ms, day) ==> OfDay(ms, day, k) == []
  {
    if ms != [] {
      OfDayMembers(ms[..|ms| - 1], day, k);
    }
  }

  /** Adding one message to the input adds it to the concatenation of any distinct
      keys exactly when its day is among them. */
  lemma {:induction false} ConcatSnoc(ks: seq<string>, ms: seq<UiMessage>, m: UiMessage, day: UiMessage -> string)
    requires Distinct(ks)
    ensures multiset(Concat(ks, ms + [m], day))
         == multiset(Concat(ks, ms, day)) + (if day(m) in ks then multiset{m} else multiset{})
  {
    if ks != [] {
      var init := ks[..|ks| - 1];
      var k := ks[|ks| - 1];
      ConcatSnoc(init, ms, m, day);
      assert (ms + [m])[..|ms + [m]| - 1] == ms;
      assert OfDay(ms + [m], day, k) == OfDay(ms, day, k) + (if day(m) == k then [m] else []);
      assert day(m) in ks <==> day(m) in init || day(m) == k;
      assert k !in init;
    }
  }

  /** The groups together hold exactly the input messages: the grouping loses none,
      duplicates none and invents none. */
  lemma {:induction false} GroupingIsPermutation(ms: seq<UiMessage>, day: UiMessage -> string)
    ensures multiset(Concat(Days(ms, day), ms, day)) == multiset(ms)
  {
    if ms != [] {
      var p := ms[..|ms| - 1];
      var m := ms[|ms| - 1];
      assert ms == p + [m];
      GroupingIsPermutation(p, day);
      DaysDistinct(p, day);
      ConcatSnoc(Days(p, day), p, m, day);
      if day(m) !in Days(p, day) {
        var ks := Days(p, day) + [day(m)];
        assert ks[..|ks| - 1] == Days(p, day);
        OfDayMembers(p, day, day(m));
        assert OfDay(ms, day, day(m)) == [m];
      }
    }
  }

  /** The positions of day `k` in increasing order. */
  function DayIndices(ms: seq<UiMessage>, day: UiMessage -> string, k: string): (idx: seq<nat>)
    ensures forall t :: 0 <= t < |idx| ==> idx[t] < |ms| && day(ms[idx[t]]) == k
    ensures forall t, u :: 0 <= t < u < |idx| ==> idx[t] < idx[u]
    ensures forall i :: 0 <= i < |ms| && day(ms[i]) == k ==> i in idx
  {
    if ms == [] then []
    else
      var p := ms[..|ms| - 1];
      var prev := DayIndices(p, day, k);
      assert forall i :: 0 <= i < |p| ==> ms[i] == p[i];
      if day(ms[|ms| - 1]) == k then prev + [|ms| - 1] else prev
  }

  /** A group is the subsequence of its day: its messages keep the order they had. */
  lemma {:induction false} OfDayKeepsOrder(ms: seq<UiMessage>, day: UiMessage -> string, k: string)
    ensures var idx := DayIndices(ms, day, k);
      |OfDay(ms, day, k)| == |idx| && forall t :: 0 <= t < |idx| ==> OfDay(ms, day, k)[t] == ms[idx[t]]
  {
    if ms != [] {
      var p := ms[..|ms| - 1];
      OfDayKeepsOrder(p, day, k);
      var prev := DayIndices(p, day, k);
      var group := OfDay(p, day, k);
      assert forall t :: 0 <= t < |prev| ==> group[t] == ms[prev[t]] by {
        forall t | 0 <= t < |prev|
          ensures group[t] == ms[prev[t]]
        {
          assert ms[prev[t]] == p[prev[t]];
        }
      }
      if day(ms[|ms| - 1]) == k {
        assert DayIndices(ms, day, k) == prev + [|ms| - 1];
        assert OfDay(ms, day, k) == group + [ms[|ms| - 1]];
      } else {
        assert DayIndices(ms, day, k) == prev;
        assert OfDay(ms, day, k) == group;
      }
    }
  }

  // ---------------------------------------------------------------------------
  // Component state

  /** What the Escape key does. */
  datatype EscapeEffect = CloseMediaUpload | CloseTemplateSelector | GoBack | CloseChat | NoEffect

  /** `handleSendMessage`'s guard: some non-blank input, a chat or a broadcast group,
      nothing loading. */
  predicate CanSend(input: string, hasSelectedUser: bool, broadcastGroupName: Option<string>, isLoading: bool) {
    Trim(input) != [] && (hasSelectedUser || Present(broadcastGroupName)) && !isLoading
  }

  /** The Escape handler's priority, listening only while a chat is open. */
  function EscapeEffectOf(key: string, hasSelectedUser: bool, showMediaUpload: bool, showTemplateSelector: bool,
                          isMobile: bool, hasOnBack: bool, hasOnClose: bool): (e: EscapeEffect)
    ensures e == CloseMediaUpload <==> key == "Escape" && hasSelectedUser && showMediaUpload
    ensures e == CloseTemplateSelector <==> key == "Escape" && hasSelectedUser && !showMediaUpload && showTemplateSelector
    ensures e == GoBack <==>
              key == "Escape" && hasSelectedUser && !showMediaUpload && !showTemplateSelector && isMobile && hasOnBack
    ensures e == CloseChat <==>
              key == "Escape" && hasSelectedUser && !showMediaUpload && !showTemplateSelector && !isMobile && hasOnClose
  {
    if key != "Escape" || !hasSelectedUser then NoEffect
    else if showMediaUpload then CloseMediaUpload
    else if showTemplateSelector then CloseTemplateSelector
    else if isMobile && hasOnBack then GoBack
    else if !isMobile && hasOnClose then CloseChat
    else NoEffect
  }

  class WindowState {
    var messageInput: string
    var showMediaUpload: bool
    var showTemplateSelector: bool
    var refreshingUrls: set<string>
    var loadingMedia: set<string>

    constructor()
      ensures messageInput == "" && !showMediaUpload && !showTemplateSelector
      ensures refreshingUrls == {} && loadingMedia == {}
    {
      messageInput := "";
      showMediaUpload := false;
      showTemplateSelector := false;
      refreshingUrls := {};
      loadingMedia := {};
    }

    /** Sends the trimmed input and clears it when the guard holds; otherwise changes
        nothing. */
    method SendMessage(hasSelectedUser: bool, broadcastGroupName: Option<string>, isLoading: bool) returns (sent: Option<string>)
      modifies this
      ensures CanSend(old(messageInput), hasSelectedUser, broadcastGroupName, isLoading) ==>
                sent == Some(Trim(old(messageInput))) && messageInput == ""
      ensures !CanSend(old(messageInput), hasSelectedUser, broadcastGroupName, isLoading) ==>
                sent == None && messageInput == old(messageInput)
      ensures sent.Some? ==> sent.value != [] && !IsSpace(sent.value[0]) && !IsSpace(sent.value[|sent.value| - 1])
      ensures showMediaUpload == old(showMediaUpload) && showTemplateSelector == old(showTemplateSelector)
      ensures refreshingUrls == old(refreshingUrls) && loadingMedia == old(loadingMedia)
    {
      if CanSend(messageInput, hasSelectedUser, broadcastGroupName, isLoading) {
        sent := Some(Trim(messageInput));
        messageInput := "";
      } else {
        sent := None;
      }
    }

    /** A key press: closes the innermost open panel, else navigates away. */
    method KeyDown(key: string, hasSelectedUser: bool, isMobile: bool, hasOnBack: bool, hasOnClose: bool) returns (effect: EscapeEffect)
      modifies this
      ensures effect == EscapeEffectOf(key, hasSelectedUser, old(showMediaUpload), old(showTemplateSelector), isMobile, hasOnBack, hasOnClose)
      ensures showMediaUpload == (old(showMediaUpload) && effect != CloseMediaUpload)
      ensures showTemplateSelector == (old(showTemplateSelector) && effect != CloseTemplateSelector)
      ensures messageInput == old(messageInput)
      ensures refreshingUrls == old(refreshingUrls) && loadingMedia == old(loadingMedia)
    {
      effect := EscapeEffectOf(key, hasSelectedUser, showMediaUpload, showTemplateSelector, isMobile, hasOnBack, hasOnClose);
      if effect == CloseMediaUpload {
        showMediaUpload := false;
      } else if effect == CloseTemplateSelector {
        showTemplateSelector := false;
      }
    }

    /** `refreshMediaUrl` on entry: a refresh already in progress is not started again. */
    method BeginRefresh(messageId: string) returns (started: bool)
      modifies this
      ensures started <==> messageId !in old(refreshingUrls)
      ensures refreshingUrls == old(refreshingUrls) + {messageId}
      ensures messageInput == old(messageInput) && loadingMedia == old(loadingMedia)
      ensures showMediaUpload == old(showMediaUpload) && showTemplateSelector == old(showTemplateSelector)
    {
      if messageId in refreshingUrls {
        started := false;
      } else {
        refreshingUrls := refreshingUrls + {messageId};
        started := true;
      }
    }

    /** `refreshMediaUrl`'s `finally`: the refresh is over, whatever its outcome. */
    method EndRefresh(messageId: string)
      modifies this
      ensures refreshingUrls == old(refreshingUrls) - {messageId}
      ensures messageInput == old(messageInput) && loadingMedia == old(loadingMedia)
      ensures showMediaUpload == old(showMediaUpload) && showTemplateSelector == old(showTemplateSelector)
    {
      refreshingUrls := refreshingUrls - {messageId};
    }

    /** `handleMediaLoadStart`. */
    method MediaLoadStart(messageId: string)
      modifies this
      ensures loadingMedia == old(loadingMedia) + {messageId}
      ensures messageInput == old(messageInput) && refreshingUrls == old(refreshingUrls)
      ensures showMediaUpload == old(showMediaUpload) && showTemplateSelector == old(showTemplateSelector)
    {
      loadingMedia := loadingMedia + {messageId};
    }

    /** `handleMediaLoad`. */
    method MediaLoaded(messageId: string)
      modifies this
      ensures loadingMedia == old(loadingMedia) - {messageId}
      ensures messageInput == old(messageInput) && refreshingUrls == old(refreshingUrls)
      ensures showMediaUpload == old(showMediaUpload) && showTemplateSelector == old(showTemplateSelector)
    {
      loadingMedia := loadingMedia - {messageId};
    }
  }

  /** After a send the input is empty, so pressing send again does nothing. */
  lemma SendClearsGuard(hasSelectedUser: bool, broadcastGroupName: Option<string>, isLoading: bool)
    ensures !CanSend("", hasSelectedUser, broadcastGroupName, isLoading)
  {
  }

  /** A blank input never sends, whatever else holds. */
  lemma BlankInputNeverSends(input: string, hasSelectedUser: bool, broadcastGroupName: Option<string>, isLoading: bool)
    requires forall k :: 0 <= k < |input| ==> IsSpace(input[k])
    ensures !CanSend(input, hasSelectedUser, broadcastGroupName, isLoading)
  {
    TrimEmptyIff(input);
  }
}
