/**
  internal/notifications/server.go: real-time transaction events.
  Flow-change events from the database become Transactions broadcast to the
  event's account; a viewer obtains a short-lived SSE token (POST) and then
  presents it to open an event stream (GET).
*/
module Notifications {
  import opened Wrappers
  import opened Json
  import opened LedgerTypes
  import Transactions
  import opened Subscribers

  /** A flow-change event as the database publishes it; the type column is the raw string. */
  datatype FlowChangeNotification = FlowChangeNotification(
    account: AccountId,
    id: FlowId,
    flowType: string,
    metadata: Document,
    deltaPoints: int,
    createdAt: Timestamp,
    finalizedAt: Option<Timestamp>,
    accepted: bool)

  /** The Transaction a subscriber receives for one event. */
  function EventTransaction(e: FlowChangeNotification): (t: Transaction)
    ensures t.id == e.id && t.deltaPoints == e.deltaPoints && t.flowType == ParseFlowType(e.flowType)
    ensures t.state == Pending <==> e.finalizedAt.None?
    ensures t.state == Accepted <==> e.finalizedAt.Some? && e.accepted
    ensures t.timestamp == e.finalizedAt.GetOr(e.createdAt)
    ensures t.description == Transactions.Describe(ParseFlowType(e.flowType), e.metadata)
  {
    Transactions.BuildTransaction(e.id, ParseFlowType(e.flowType), e.metadata, e.deltaPoints,
                                  e.createdAt, e.finalizedAt, e.accepted)
  }

  /** The transactions of the account's events, in event order. */
  function EventsFor(events: seq<FlowChangeNotification>, account: AccountId): (r: seq<Transaction>)
    ensures |r| <= |events|
    decreases |events|
  {
    if events == [] then []
    else
      var e := events[|events| - 1];
      EventsFor(events[..|events| - 1], account) + (if e.account == account then [EventTransaction(e)] else [])
  }

  /** An account with no events receives nothing. */
  lemma {:induction false} EventsForOtherAccounts(events: seq<FlowChangeNotification>, account: AccountId)
    requires forall i :: 0 <= i < |events| ==> events[i].account != account
    ensures EventsFor(events, account) == []
    decreases |events|
  {
    if events != [] {
      EventsForOtherAccounts(events[..|events| - 1], account);
    }
  }

  /**
    One step of `ReadPostgresNotifications`: build the event's Transaction and
    broadcast it. Exactly the channels subscribed for the event's account gain
    it, at the end of their queues.
  */
  method Dispatch(subs: SubscriberChannels, e: FlowChangeNotification)
    requires subs.Valid()
    modifies subs
    ensures subs.Valid()
    ensures subs.chans == old(subs.chans) && subs.owner == old(subs.owner) && subs.nextChannel == old(subs.nextChannel)
    ensures subs.queues.Keys == old(subs.queues).Keys
    ensures forall c :: c in old(subs.queues) ==>
      subs.queues[c] == old(subs.queues)[c] + (if Receives(old(subs.chans), old(subs.owner), c, e.account) then [EventTransaction(e)] else [])
  {
    var t := EventTransaction(e);
    forall c | c in subs.queues
      ensures Sent(subs.queues, ChannelsOf(subs.chans, e.account), t)[c] ==
        subs.queues[c] + (if Receives(subs.chans, subs.owner, c, e.account) then [t] else [])
    {
      BroadcastReachesOnlyAccount(subs, e.account, t, c);
    }
    subs.Broadcast(e.account, t);
  }

  /** The transactions channel `c` is due from `events`: its account's, when it is listed. */
  ghost function Inbox(chans: map<AccountId, seq<Channel>>, owner: map<Channel, AccountId>, c: Channel,
                       events: seq<FlowChangeNotification>): seq<Transaction>
  {
    if c in owner && Receives(chans, owner, c, owner[c]) then EventsFor(events, owner[c]) else []
  }

  /** One more event extends each channel's inbox by what that event's dispatch delivers to it. */
  lemma InboxStep(chans: map<AccountId, seq<Channel>>, owner: map<Channel, AccountId>, c: Channel,
                  events: seq<FlowChangeNotification>, i: nat)
    requires i < |events|
    ensures Inbox(chans, owner, c, events[..i + 1]) ==
      Inbox(chans, owner, c, events[..i]) + (if Receives(chans, owner, c, events[i].account) then [EventTransaction(events[i])] else [])
  {
    assert events[..i + 1][..i] == events[..i];
  }

  /** Queues holding the inboxes of the first `i` events hold those of `i + 1` after one dispatch. */
  lemma InboxGrows(chans: map<AccountId, seq<Channel>>, owner: map<Channel, AccountId>,
                   queues0: map<Channel, seq<Transaction>>, before: map<Channel, seq<Transaction>>, after: map<Channel, seq<Transaction>>,
                   events: seq<FlowChangeNotification>, i: nat)
    requires i < |events|
    requires before.Keys == queues0.Keys && after.Keys == before.Keys
    requires forall c :: c in queues0 ==> before[c] == queues0[c] + Inbox(chans, owner, c, events[..i])
    requires forall c :: c in before ==>
      after[c] == before[c] + (if Receives(chans, owner, c, events[i].account) then [EventTransaction(events[i])] else [])
    ensures forall c :: c in queues0 ==> after[c] == queues0[c] + Inbox(chans, owner, c, events[..i + 1])
  {
    forall c | c in queues0
      ensures after[c] == queues0[c] + Inbox(chans, owner, c, events[..i + 1])
    {
      InboxStep(chans, owner, c, events, i);
    }
  }

  /**
    The event loop over a finite run of events: every listed channel
    receives its own account's transactions in event order, and no others.
  */
  method ReadEvents(subs: SubscriberChannels, events: seq<FlowChangeNotification>)
    requires subs.Valid()
    modifies subs
    ensures subs.Valid()
    ensures subs.chans == old(subs.chans) && subs.owner == old(subs.owner)
    ensures subs.queues.Keys == old(subs.queues).Keys
    ensures forall c :: c in old(subs.queues) ==>
      subs.queues[c] == old(subs.queues)[c] + Inbox(old(subs.chans), old(subs.owner), c, events)
  {
    ghost var chans0, owner0, queues0 := subs.chans, subs.owner, subs.queues;
    var i := 0;
    while i < |events|
      invariant 0 <= i <= |events|
      invariant subs.Valid()
      invariant subs.chans == chans0 && subs.owner == owner0
      invariant subs.queues.Keys == queues0.Keys
      invariant forall c :: c in queues0 ==> subs.queues[c] == queues0[c] + Inbox(chans0, owner0, c, events[..i])
    {
      ghost var before := subs.queues;
      Dispatch(subs, events[i]);
      InboxGrows(chans0, owner0, queues0, before, subs.queues, events, i);
      i := i + 1;
    }
    assert events[..|events|] == events;
  }

  // --- Opening a stream: GET /notifications ---

  // An accept header that is unset, "*/*" or starts with "text/event-stream" is served.
  predicate AcceptsEventStream(accept: string)
  {
    accept == "" || accept == "*/*" || "text/event-stream" <= accept
  }

  /**
    The checks before a stream opens, in the handler's order: the accept
    header, a non-empty token, then the token lookup (a failed query, or no
    unexpired row for the token).
  */
  function Admit(accept: string, token: string, lookup: Result<Option<AccountId>, string>): (r: Result<AccountId, HttpError>)
    ensures r.Success? <==> AcceptsEventStream(accept) && token != "" && lookup.Success? && lookup.value.Some?
    ensures r.Success? ==> r.value == lookup.value.value
    ensures !AcceptsEventStream(accept) ==> r == Failure(HttpError(BadRequest, "content-type " + accept + " is not supported"))
    ensures AcceptsEventStream(accept) && token == "" ==> r == Failure(HttpError(Unauthorized, "'token' URL parameter must be set"))
    ensures AcceptsEventStream(accept) && token != "" && lookup == Success(None) ==> r == Failure(HttpError(Unauthorized, "invalid token"))
    ensures AcceptsEventStream(accept) && token != "" && lookup.Failure? ==> r == Failure(HttpError(InternalServerError, lookup.error))
  {
    if !AcceptsEventStream(accept) then Failure(HttpError(BadRequest, "content-type " + accept + " is not supported"))
    else if token == "" then Failure(HttpError(Unauthorized, "'token' URL parameter must be set"))
    else match lookup
      case Failure(err) => Failure(HttpError(InternalServerError, err))
      case Success(None) => Failure(HttpError(Unauthorized, "invalid token"))
      case Success(Some(account)) => Success(account)
  }

  /** The first keep-alive comment, written as soon as the stream opens. */
  const StreamPreamble: string := ":\n\n"

  /** One server-sent event; a transaction that does not serialize is skipped. */
  function Frame(encode: Transaction -> Option<string>, t: Transaction): string
  {
    match encode(t)
    case None => ""
    case Some(data) => "data: " + data + "\n\n"
  }

  function Frames(encode: Transaction -> Option<string>, ts: seq<Transaction>): (r: string)
    ensures ts == [] ==> r == ""
    decreases |ts|
  {
    if ts == [] then "" else Frame(encode, ts[0]) + Frames(encode, ts[1..])
  }

  lemma {:induction false} FramesAppend(encode: Transaction -> Option<string>, a: seq<Transaction>, b: seq<Transaction>)
    ensures Frames(encode, a + b) == Frames(encode, a) + Frames(encode, b)
    decreases |a|
  {
    if a == [] {
      assert a + b == b;
    } else {
      assert (a + b)[1..] == a[1..] + b;
      FramesAppend(encode, a[1..], b);
    }
  }

  /**
    `handleGetNotifications` for a connection that sees `events` while open.
    Once admitted, the viewer's channel is registered, the preamble written,
    each event dispatched and the channel drained into the response, and the
    channel is unregistered before returning.
  */
  method HandleGetNotifications(subs: SubscriberChannels, store: SseTokenStore, accept: string, token: string,
                                lookupFault: Option<string>, now: Timestamp,
                                events: seq<FlowChangeNotification>, encode: Transaction -> Option<string>)
    returns (r: Result<string, HttpError>)
    requires subs.Valid()
    modifies subs
    ensures subs.Valid()
    ensures var lookup := if lookupFault.Some? then Failure(lookupFault.value) else Success(IdentifyUser(store.tokens, token, now));
      var admitted := Admit(accept, token, lookup);
      && (admitted.Failure? ==> r == Failure(admitted.error) && subs.chans == old(subs.chans) && subs.queues == old(subs.queues))
      && (admitted.Success? ==> r == Success(StreamPreamble + Frames(encode, EventsFor(events, admitted.value))))
      && (admitted.Success? ==> subs.chans == old(subs.chans)[admitted.value := ChannelsOf(old(subs.chans), admitted.value)])
  {
    var lookup: Result<Option<AccountId>, string>;
    if lookupFault.Some? {
      lookup := Failure(lookupFault.value);
    } else {
      var found := store.Identify(token, now);
      lookup := Success(found);
    }
    var admitted := Admit(accept, token, lookup);
    if admitted.Failure? {
      return Failure(admitted.error);
    }
    var out := Stream(subs, admitted.value, events, encode);
    r := Success(out);
  }

  /**
    An admitted viewer's stream: register a channel, write the preamble,
    then for each event dispatch it and drain the channel into the response;
    unregister the channel on the way out.
  */
  method Stream(subs: SubscriberChannels, user: AccountId, events: seq<FlowChangeNotification>,
                encode: Transaction -> Option<string>) returns (out: string)
    requires subs.Valid()
    modifies subs
    ensures subs.Valid()
    ensures out == StreamPreamble + Frames(encode, EventsFor(events, user))
    ensures subs.chans == old(subs.chans)[user := ChannelsOf(old(subs.chans), user)]
  {
    ghost var chans0 := subs.chans;
    var ch := subs.Register(user);
    var frames := StreamEvents(subs, user, ch, events, encode);
    out := StreamPreamble + frames;
    RemoveFirstOfAppended(ChannelsOf(chans0, user), ch);
    subs.Unregister(user, ch);
  }

  /** The body of an open stream: each event in turn, with the frames it produces. */
  method StreamEvents(subs: SubscriberChannels, user: AccountId, ch: Channel, events: seq<FlowChangeNotification>,
                      encode: Transaction -> Option<string>) returns (frames: string)
    requires subs.Valid() && ch in subs.queues && subs.queues[ch] == []
    requires Receives(subs.chans, subs.owner, ch, user)
    modifies subs
    ensures subs.Valid()
    ensures subs.chans == old(subs.chans) && subs.owner == old(subs.owner)
    ensures frames == Frames(encode, EventsFor(events, user))
  {
    frames := "";
    var i := 0;
    while i < |events|
      invariant 0 <= i <= |events|
      invariant subs.Valid() && ch in subs.queues && subs.queues[ch] == []
      invariant subs.chans == old(subs.chans) && subs.owner == old(subs.owner)
      invariant frames == Frames(encode, EventsFor(events[..i], user))
    {
      var more := StreamEvent(subs, user, ch, events[i], encode);
      StreamStep(encode, events, user, i);
      frames := frames + more;
      i := i + 1;
    }
    assert events[..|events|] == events;
  }

  /** One event while the stream is open: dispatch it, then drain the viewer's channel. */
  method StreamEvent(subs: SubscriberChannels, user: AccountId, ch: Channel, e: FlowChangeNotification,
                     encode: Transaction -> Option<string>) returns (frames: string)
    requires subs.Valid() && ch in subs.queues && subs.queues[ch] == []
    requires Receives(subs.chans, subs.owner, ch, user)
    modifies subs
    ensures subs.Valid() && ch in subs.queues && subs.queues[ch] == []
    ensures subs.chans == old(subs.chans) && subs.owner == old(subs.owner)
    ensures frames == Frames(encode, if e.account == user then [EventTransaction(e)] else [])
  {
    Dispatch(subs, e);
    assert subs.queues[ch] == if e.account == user then [EventTransaction(e)] else [];
    frames := DrainChannel(subs, ch, encode);
  }

  /** The frames written for the first `i + 1` events extend those for the first `i`. */
  lemma StreamStep(encode: Transaction -> Option<string>, events: seq<FlowChangeNotification>, user: AccountId, i: nat)
    requires i < |events|
    ensures Frames(encode, EventsFor(events[..i + 1], user)) ==
      Frames(encode, EventsFor(events[..i], user)) + Frames(encode, if events[i].account == user then [EventTransaction(events[i])] else [])
  {
    assert events[..i + 1][..i] == events[..i];
    FramesAppend(encode, EventsFor(events[..i], user), if events[i].account == user then [EventTransaction(events[i])] else []);
  }

  /** Receive from the channel until it is empty, writing one frame per transaction. */
  method DrainChannel(subs: SubscriberChannels, ch: Channel, encode: Transaction -> Option<string>) returns (frames: string)
    requires subs.Valid() && ch in subs.queues
    modifies subs
    ensures subs.Valid()
    ensures subs.chans == old(subs.chans) && subs.owner == old(subs.owner) && subs.nextChannel == old(subs.nextChannel)
    ensures subs.queues == old(subs.queues)[ch := []]
    ensures frames == Frames(encode, old(subs.queues)[ch])
  {
    frames := "";
    while subs.queues[ch] != []
      invariant subs.Valid() && ch in subs.queues
      invariant subs.chans == old(subs.chans) && subs.owner == old(subs.owner) && subs.nextChannel == old(subs.nextChannel)
      invariant subs.queues == old(subs.queues)[ch := subs.queues[ch]]
      invariant frames + Frames(encode, subs.queues[ch]) == Frames(encode, old(subs.queues)[ch])
      decreases |subs.queues[ch]|
    {
      ghost var pending := subs.queues[ch];
      var t := subs.Receive(ch);
      assert t == Some(pending[0]) && subs.queues[ch] == pending[1..];
      frames := frames + Frame(encode, t.value);
    }
  }

  // --- Issuing a token: POST /notifications ---

  /** Tokens expire 600 seconds after they are issued. */
  const SseTokenTtlSeconds: int := 600

  datatype SseToken = SseToken(account: AccountId, value: string, expiresAt: Timestamp)

  /** A token identifies its account strictly before its expiry time. */
  predicate Unexpired(t: SseToken, now: Timestamp)
  {
    t.expiresAt > now
  }

  /** The account of the first unexpired token with this value. */
  function IdentifyUser(tokens: seq<SseToken>, value: string, now: Timestamp): (r: Option<AccountId>)
    ensures r.None? <==> forall i :: 0 <= i < |tokens| ==> !(tokens[i].value == value && Unexpired(tokens[i], now))
    ensures r.Some? ==> exists i :: 0 <= i < |tokens| && tokens[i].value == value && Unexpired(tokens[i], now) && tokens[i].account == r.value
    decreases |tokens|
  {
    if tokens == [] then None
    else if tokens[0].value == value && Unexpired(tokens[0], now) then Some(tokens[0].account)
    else
      var r := IdentifyUser(tokens[1..], value, now);
      assert forall i :: 0 < i < |tokens| ==> tokens[i] == tokens[1..][i - 1];
      r
  }

  /** The tokens left after purging the account's expired ones, in their order. */
  function Purged(tokens: seq<SseToken>, account: AccountId, now: Timestamp): (r: seq<SseToken>)
    ensures |r| <= |tokens|
    decreases |tokens|
  {
    if tokens == [] then []
    else
      var t := tokens[|tokens| - 1];
      Purged(tokens[..|tokens| - 1], account, now) + (if t.account == account && !Unexpired(t, now) then [] else [t])
  }

  /** Purging keeps exactly the other accounts' tokens and the account's unexpired ones. */
  lemma {:induction false} PurgedKeeps(tokens: seq<SseToken>, account: AccountId, now: Timestamp, t: SseToken)
    ensures t in Purged(tokens, account, now) <==> t in tokens && (t.account != account || Unexpired(t, now))
    decreases |tokens|
  {
    if tokens != [] {
      var init := tokens[..|tokens| - 1];
      PurgedKeeps(init, account, now, t);
      assert tokens == init + [tokens[|tokens| - 1]];
    }
  }

  /** Identifying after a token at the end: earlier tokens take precedence. */
  lemma {:induction false} IdentifyAppend(tokens: seq<SseToken>, t: SseToken, value: string, now: Timestamp)
    ensures IdentifyUser(tokens + [t], value, now) ==
      if IdentifyUser(tokens, value, now).Some? then IdentifyUser(tokens, value, now)
      else if t.value == value && Unexpired(t, now) then Some(t.account)
      else None
    decreases |tokens|
  {
    if tokens != [] {
      assert (tokens + [t])[1..] == tokens[1..] + [t];
      IdentifyAppend(tokens[1..], t, value, now);
    }
  }

  /** Purging expired tokens never changes who a token identifies, now or later. */
  lemma {:induction false} PurgeKeepsIdentity(tokens: seq<SseToken>, account: AccountId, now: Timestamp, value: string, later: Timestamp)
    requires now <= later
    ensures IdentifyUser(Purged(tokens, account, now), value, later) == IdentifyUser(tokens, value, later)
    decreases |tokens|
  {
    if tokens != [] {
      var init := tokens[..|tokens| - 1];
      var t := tokens[|tokens| - 1];
      assert tokens == init + [t];
      PurgeKeepsIdentity(init, account, now, value, later);
      IdentifyAppend(init, t, value, later);
      if !(t.account == account && !Unexpired(t, now)) {
        IdentifyAppend(Purged(init, account, now), t, value, later);
      } else {
        assert Purged(init, account, now) + [] == Purged(init, account, now);
      }
    }
  }

  /** The SSE token table. */
  class SseTokenStore {
    var tokens: seq<SseToken>

    constructor ()
      ensures tokens == []
    {
      tokens := [];
    }

    /** Delete the account's expired tokens, keeping the rest in order. */
    method PurgeForUser(account: AccountId, now: Timestamp)
      modifies this
      ensures tokens == Purged(old(tokens), account, now)
    {
      var kept: seq<SseToken> := [];
      var i := 0;
      while i < |tokens|
        invariant 0 <= i <= |tokens|
        invariant kept == Purged(tokens[..i], account, now)
      {
        assert tokens[..i + 1][..i] == tokens[..i];
        var t := tokens[i];
        if !(t.account == account && !Unexpired(t, now)) {
          kept := kept + [t];
        }
        i := i + 1;
      }
      assert tokens[..|tokens|] == tokens;
      tokens := kept;
    }

    method StoreToken(account: AccountId, value: string, ttlSeconds: int, now: Timestamp)
      modifies this
      ensures tokens == old(tokens) + [SseToken(account, value, now + ttlSeconds)]
    {
      tokens := tokens + [SseToken(account, value, now + ttlSeconds)];
    }

    /** The first unexpired token with this value names the account. */
    method Identify(value: string, now: Timestamp) returns (r: Option<AccountId>)
      ensures r == IdentifyUser(tokens, value, now)
    {
      var i := 0;
      while i < |tokens|
        invariant 0 <= i <= |tokens|
        invariant IdentifyUser(tokens, value, now) == IdentifyUser(tokens[i..], value, now)
      {
        if tokens[i].value == value && Unexpired(tokens[i], now) {
          return Some(tokens[i].account);
        }
        assert tokens[i..][1..] == tokens[i + 1..];
        i := i + 1;
      }
      return None;
    }
  }

  /**
    `handlePostNotifications`: generate a token, purge the caller's expired
    tokens, store the new one with a 600-second lifetime, and answer with the
    token. A failing generator, purge or store answers 500 with its message.
  */
  method HandlePostNotifications(store: SseTokenStore, caller: AccountId, generated: Result<string, string>,
                                 purgeFault: Option<string>, storeFault: Option<string>, now: Timestamp)
    returns (r: Result<string, HttpError>)
    modifies store
    ensures generated.Failure? ==> r == Failure(HttpError(InternalServerError, generated.error)) && store.tokens == old(store.tokens)
    ensures generated.Success? && purgeFault.Some? ==>
      r == Failure(HttpError(InternalServerError, purgeFault.value)) && store.tokens == old(store.tokens)
    ensures generated.Success? && purgeFault.None? && storeFault.Some? ==>
      r == Failure(HttpError(InternalServerError, storeFault.value)) && store.tokens == Purged(old(store.tokens), caller, now)
    ensures r.Success? <==> generated.Success? && purgeFault.None? && storeFault.None?
    ensures r.Success? ==> r.value == generated.value
    ensures r.Success? ==>
      store.tokens == Purged(old(store.tokens), caller, now) + [SseToken(caller, generated.value, now + SseTokenTtlSeconds)]
  {
    if generated.Failure? {
      return Failure(HttpError(InternalServerError, generated.error));
    }
    var token := generated.value;
    if purgeFault.Some? {
      return Failure(HttpError(InternalServerError, purgeFault.value));
    }
    store.PurgeForUser(caller, now);
    if storeFault.Some? {
      return Failure(HttpError(InternalServerError, storeFault.value));
    }
    store.StoreToken(caller, token, SseTokenTtlSeconds, now);
    r := Success(token);
  }

  /**
    A freshly issued token (one no stored token already carries) identifies
    the caller until 600 seconds after issue, and nobody afterwards.
  */
  lemma IssuedTokenIdentifiesCaller(tokens: seq<SseToken>, caller: AccountId, value: string, now: Timestamp, later: Timestamp)
    requires forall i :: 0 <= i < |tokens| ==> tokens[i].value != value
    ensures IdentifyUser(Purged(tokens, caller, now) + [SseToken(caller, value, now + SseTokenTtlSeconds)], value, later) ==
      if later < now + SseTokenTtlSeconds then Some(caller) else None
  {
    var kept := Purged(tokens, caller, now);
    forall i | 0 <= i < |kept|
      ensures kept[i].value != value
    {
      PurgedKeeps(tokens, caller, now, kept[i]);
    }
    IdentifyAppend(kept, SseToken(caller, value, now + SseTokenTtlSeconds), value, later);
  }
}
