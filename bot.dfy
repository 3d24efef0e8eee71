/** The parts of bot.py that do not talk to the chat service: the configuration
    lookups for users and conversations, and the buffer of messages the bot has
    sent, which keeps it from answering its own messages when they come back. */
module ChatBot {
  import opened Common

  /** A configured user: the chat id and the user's properties ("admin",
      "reply_to", ...). */
  datatype UserEntry = UserEntry(id: string, flags: map<string, bool>)

  /** A configured conversation: the name it is listed under in the
      configuration, its id and its properties ("reply_to", "load_history"). */
  datatype ConvEntry = ConvEntry(name: string, id: string, flags: map<string, bool>)

  /** dict.get(key, default) */
  function Get(flags: map<string, bool>, key: string, default: bool): bool {
    if key in flags then flags[key] else default
  }

  /** user_is(property, user, default): the property of the first configured
      user with the user's id, or `default` when that user lacks it; False when
      no configured user has the id. */
  function UserIs(users: seq<UserEntry>, property: string, userId: string, default: bool): (r: bool)
    ensures (forall i :: 0 <= i < |users| ==> users[i].id != userId) ==> !r
  {
    if users == [] then false
    else if users[0].id == userId then Get(users[0].flags, property, default)
    else UserIs(users[1..], property, userId, default)
  }

  /** The first user with the id decides. */
  lemma {:induction false} UserIsFirst(users: seq<UserEntry>, property: string, userId: string, default: bool, i: nat)
    requires i < |users| && users[i].id == userId
    requires forall j :: 0 <= j < i ==> users[j].id != userId
    ensures UserIs(users, property, userId, default) == Get(users[i].flags, property, default)
  {
    if i > 0 {
      UserIsFirst(users[1..], property, userId, default, i - 1);
    }
  }

  /** An unknown user has no property, whatever the default. */
  lemma UnknownUser(users: seq<UserEntry>, property: string, userId: string)
    requires forall i :: 0 <= i < |users| ==> users[i].id != userId
    ensures !UserIs(users, property, userId, true)
  {
  }

  /** conv_is(property, conv, default): the property of the first configured
      conversation with the id, or `default` when it lacks it; None (the
      function falls off its end) when no configured conversation has the id. */
  function ConvIs(convs: seq<ConvEntry>, property: string, convId: string, default: bool): (r: Option<bool>)
    ensures r.None? <==> forall i :: 0 <= i < |convs| ==> convs[i].id != convId
  {
    if convs == [] then None
    else if convs[0].id == convId then Some(Get(convs[0].flags, property, default))
    else ConvIs(convs[1..], property, convId, default)
  }

  lemma {:induction false} ConvIsFirst(convs: seq<ConvEntry>, property: string, convId: string, default: bool, i: nat)
    requires i < |convs| && convs[i].id == convId
    requires forall j :: 0 <= j < i ==> convs[j].id != convId
    ensures ConvIs(convs, property, convId, default) == Some(Get(convs[i].flags, property, default))
  {
    if i > 0 {
      ConvIsFirst(convs[1..], property, convId, default, i - 1);
    }
  }

  /** get_conv(name): the id of the conversation configured under that name,
      otherwise the argument itself taken as an id. */
  function GetConv(convs: seq<ConvEntry>, name: string): (id: string)
    ensures (forall i :: 0 <= i < |convs| ==> convs[i].name != name) ==> id == name
  {
    if convs == [] then name
    else if convs[0].name == name then convs[0].id
    else GetConv(convs[1..], name)
  }

  lemma {:induction false} GetConvNamed(convs: seq<ConvEntry>, name: string, i: nat)
    requires i < |convs| && convs[i].name == name
    requires forall j :: 0 <= j < i ==> convs[j].name != name
    ensures GetConv(convs, name) == convs[i].id
  {
    if i > 0 {
      GetConvNamed(convs[1..], name, i - 1);
    }
  }

  /** The position of the first occurrence of x. */
  function IndexOf(s: seq<string>, x: string): (i: nat)
    requires x in s
    ensures i < |s| && s[i] == x
    ensures forall j :: 0 <= j < i ==> s[j] != x
  {
    if s[0] == x then 0 else 1 + IndexOf(s[1..], x)
  }

  /** list.remove(x): drops the first occurrence. */
  function RemoveFirst(s: seq<string>, x: string): (r: seq<string>)
    requires x in s
    ensures |r| == |s| - 1
  {
    var i := IndexOf(s, x);
    s[..i] + s[i + 1..]
  }

  /** Exactly one occurrence goes; everything else stays, in order. */
  lemma RemoveFirstOne(s: seq<string>, x: string)
    requires x in s
    ensures multiset(RemoveFirst(s, x)) == multiset(s) - multiset{x}
    ensures RemoveFirst(s, x)[..IndexOf(s, x)] == s[..IndexOf(s, x)]
    ensures RemoveFirst(s, x)[IndexOf(s, x)..] == s[IndexOf(s, x) + 1..]
  {
    var i := IndexOf(s, x);
    var front, back := s[..i], s[i + 1..];
    assert RemoveFirst(s, x) == front + back;
    assert s == front + [x] + back;
    assert (front + back)[..i] == front;
    assert (front + back)[i..] == back;
  }

  /** A sent message that comes back is consumed: the buffer is as before it was
      sent. */
  lemma EchoCancels(s: seq<string>, x: string)
    requires x !in s
    ensures RemoveFirst(s + [x], x) == s
  {
    assert IndexOf(s + [x], x) == |s| by {
      forall j | 0 <= j < |s| ensures (s + [x])[j] != x {
      }
    }
  }

  /** How many of `count` sends go through before the first failure, when the
      i-th send succeeds exactly when `delivered(i)`. */
  function Delivered(count: nat, delivered: nat -> bool): (k: nat)
    ensures k <= count
    ensures forall i :: 0 <= i < k ==> delivered(i)
    ensures k < count ==> !delivered(k)
  {
    if count == 0 then 0
    else
      var k := Delivered(count - 1, delivered);
      if k == count - 1 && delivered(count - 1) then count else k
  }

  /** The bot's own state: the configuration and recent_meeper_messages. */
  class Bot {
    const users: seq<UserEntry>
    const convs: seq<ConvEntry>
    var recent: seq<string>

    constructor (users: seq<UserEntry>, convs: seq<ConvEntry>)
      ensures this.users == users && this.convs == convs && recent == []
    {
      this.users := users;
      this.convs := convs;
      recent := [];
    }

    /** _on_event for a chat message: a message the bot sent itself is taken out
        of the buffer and dropped; any other is handed to the handler when its
        conversation is configured to be answered. */
    method OnMessage(text: string, convId: string) returns (dispatch: bool)
      modifies this
      ensures text in old(recent) ==> !dispatch && recent == RemoveFirst(old(recent), text)
      ensures text !in old(recent) ==> recent == old(recent)
      ensures text !in old(recent) ==>
        (dispatch <==> ConvIs(convs, "reply_to", GetConv(convs, convId), false) == Some(true))
    {
      if text in recent {
        var i := 0;
        while recent[i] != text
          invariant 0 <= i <= IndexOf(recent, text)
          decreases IndexOf(recent, text) - i
        {
          i := i + 1;
        }
        recent := recent[..i] + recent[i + 1..];
        return false;
      }
      var replyTo := ConvIs(convs, "reply_to", GetConv(convs, convId), false);
      dispatch := replyTo.Some? && replyTo.value;
    }

    /** send_message(*messages): sends in order and records each message sent;
        the first failure ends it. Returns how many were sent. */
    method SendMessages(messages: seq<string>, delivered: nat -> bool) returns (sent: nat)
      modifies this
      ensures sent == Delivered(|messages|, delivered)
      ensures recent == old(recent) + messages[..sent]
    {
      sent := 0;
      while sent < |messages|
        invariant sent <= |messages|
        invariant forall i :: 0 <= i < sent ==> delivered(i)
        invariant recent == old(recent) + messages[..sent]
      {
        if !delivered(sent) {
          DeliveredStops(|messages|, delivered, sent);
          return;
        }
        recent := recent + [messages[sent]];
        assert messages[..sent + 1] == messages[..sent] + [messages[sent]];
        sent := sent + 1;
      }
      DeliveredAll(|messages|, delivered);
    }
  }

  /** Sends stop at the first failure. */
  lemma {:induction false} DeliveredStops(count: nat, delivered: nat -> bool, k: nat)
    requires k < count && !delivered(k)
    requires forall i :: 0 <= i < k ==> delivered(i)
    ensures Delivered(count, delivered) == k
  {
    if count - 1 > k {
      DeliveredStops(count - 1, delivered, k);
    }
  }

  lemma {:induction false} DeliveredAll(count: nat, delivered: nat -> bool)
    requires forall i :: 0 <= i < count ==> delivered(i)
    ensures Delivered(count, delivered) == count
  {
    if count > 0 {
      DeliveredAll(count - 1, delivered);
    }
  }
}
