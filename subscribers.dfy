/**
  internal/notifications/subscribers.go: the registry of live event streams.
  Each account maps to the list of channels opened for it; a channel is an
  abstract handle whose buffered, not yet received transactions are kept in
  `queues`.
*/
module Subscribers {
  import opened Wrappers
  import opened LedgerTypes

  /** A channel handle; handles are never reused. */
  type Channel = nat

  /** The account's channel list, empty when the account has no entry (a nil slice in Go). */
  function ChannelsOf(chans: map<AccountId, seq<Channel>>, account: AccountId): seq<Channel>
  {
    if account in chans then chans[account] else []
  }

  /** The list without its first occurrence of `ch`; the same list when `ch` is absent. */
  function RemoveFirst(chs: seq<Channel>, ch: Channel): (r: seq<Channel>)
    ensures ch !in chs ==> r == chs
    ensures ch in chs ==> |r| == |chs| - 1
    decreases |chs|
  {
    if chs == [] then []
    else if chs[0] == ch then chs[1..]
    else [chs[0]] + RemoveFirst(chs[1..], ch)
  }

  /** Removing the first occurrence splices the list around the first matching index. */
  lemma {:induction false} RemoveFirstSplices(chs: seq<Channel>, ch: Channel, i: nat)
    requires i < |chs| && chs[i] == ch && forall k :: 0 <= k < i ==> chs[k] != ch
    ensures RemoveFirst(chs, ch) == chs[..i] + chs[i + 1..]
    decreases i
  {
    if i > 0 {
      RemoveFirstSplices(chs[1..], ch, i - 1);
      assert chs[1..][..i - 1] == chs[1..i];
      assert chs[1..][i..] == chs[i + 1..];
      assert [chs[0]] + chs[1..i] == chs[..i];
    }
  }

  /** Removing exactly one occurrence: the multiset loses one copy of `ch` and nothing else. */
  lemma {:induction false} RemoveFirstMultiset(chs: seq<Channel>, ch: Channel)
    ensures multiset(RemoveFirst(chs, ch)) == multiset(chs) - multiset{ch}
    decreases |chs|
  {
    if chs != [] {
      assert chs == [chs[0]] + chs[1..];
      if chs[0] != ch {
        RemoveFirstMultiset(chs[1..], ch);
      }
    }
  }

  /** Removing the channel just appended gives back the list as it was. */
  lemma {:induction false} RemoveFirstOfAppended(chs: seq<Channel>, ch: Channel)
    requires ch !in chs
    ensures RemoveFirst(chs + [ch], ch) == chs
    decreases |chs|
  {
    if chs == [] {
    } else {
      assert (chs + [ch])[1..] == chs[1..] + [ch];
      RemoveFirstOfAppended(chs[1..], ch);
      assert chs == [chs[0]] + chs[1..];
    }
  }

  /** `queues` after sending `t` to each channel of `chs`, in order. */
  function Sent(queues: map<Channel, seq<Transaction>>, chs: seq<Channel>, t: Transaction): (r: map<Channel, seq<Transaction>>)
    requires forall i :: 0 <= i < |chs| ==> chs[i] in queues
    ensures r.Keys == queues.Keys
    decreases |chs|
  {
    if chs == [] then queues
    else
      var before := Sent(queues, chs[..|chs| - 1], t);
      var c := chs[|chs| - 1];
      before[c := before[c] + [t]]
  }

  /** Sending to one more channel of the list appends to that channel's queue. */
  lemma SentStep(queues: map<Channel, seq<Transaction>>, chs: seq<Channel>, t: Transaction, i: nat)
    requires i < |chs| && forall k :: 0 <= k < |chs| ==> chs[k] in queues
    ensures Sent(queues, chs[..i + 1], t) == Sent(queues, chs[..i], t)[chs[i] := Sent(queues, chs[..i], t)[chs[i]] + [t]]
  {
    assert chs[..i + 1][..i] == chs[..i];
  }

  /**
    Sending to a list of distinct channels appends `t` once to each of them
    and leaves every other channel's queue as it was.
  */
  lemma {:induction false} SentDelivers(queues: map<Channel, seq<Transaction>>, chs: seq<Channel>, t: Transaction, c: Channel)
    requires forall i :: 0 <= i < |chs| ==> chs[i] in queues
    requires forall i, j :: 0 <= i < j < |chs| ==> chs[i] != chs[j]
    requires c in queues
    ensures Sent(queues, chs, t)[c] == if c in chs then queues[c] + [t] else queues[c]
    decreases |chs|
  {
    if chs != [] {
      var init := chs[..|chs| - 1];
      SentDelivers(queues, init, t, c);
      assert c in chs <==> c in init || c == chs[|chs| - 1];
      assert chs[|chs| - 1] !in init;
    }
  }

  /** No channel is listed twice. */
  ghost predicate Distinct(chs: seq<Channel>)
  {
    forall i, j :: 0 <= i < j < |chs| ==> chs[i] != chs[j]
  }

  /** Every channel of the list is open and was opened for `account`. */
  ghost predicate OpenFor(queues: map<Channel, seq<Transaction>>, owner: map<Channel, AccountId>, account: AccountId, chs: seq<Channel>)
  {
    forall i :: 0 <= i < |chs| ==> chs[i] in queues && chs[i] in owner && owner[chs[i]] == account
  }

  /** A list is distinct exactly when its head is not in its distinct tail. */
  lemma DistinctCons(chs: seq<Channel>)
    requires chs != []
    ensures Distinct(chs) <==> chs[0] !in chs[1..] && Distinct(chs[1..])
  {
    var tl := chs[1..];
    if chs[0] !in tl && Distinct(tl) {
      forall i, j | 0 <= i < j < |chs| ensures chs[i] != chs[j] {
        assert chs[j] == tl[j - 1];
        if i > 0 {
          assert chs[i] == tl[i - 1];
        }
      }
    }
    if Distinct(chs) {
      forall k | 0 <= k < |tl| ensures tl[k] != chs[0] {
        assert tl[k] == chs[k + 1];
      }
    }
  }

  /** Removing a channel keeps the list distinct and open for the same account. */
  lemma {:induction false} RemoveFirstKeeps(queues: map<Channel, seq<Transaction>>, owner: map<Channel, AccountId>,
                                            account: AccountId, chs: seq<Channel>, ch: Channel)
    requires OpenFor(queues, owner, account, chs) && Distinct(chs)
    ensures OpenFor(queues, owner, account, RemoveFirst(chs, ch)) && Distinct(RemoveFirst(chs, ch))
    ensures forall x :: x in RemoveFirst(chs, ch) ==> x in chs
    decreases |chs|
  {
    if chs != [] {
      var tl := chs[1..];
      DistinctCons(chs);
      assert OpenFor(queues, owner, account, tl) by {
        forall i | 0 <= i < |tl| ensures tl[i] == chs[i + 1] { }
      }
      if chs[0] != ch {
        RemoveFirstKeeps(queues, owner, account, tl, ch);
        var r := RemoveFirst(chs, ch);
        assert r == [chs[0]] + RemoveFirst(tl, ch);
        assert r[1..] == RemoveFirst(tl, ch);
        DistinctCons(r);
      }
    }
  }

  /** Opening a channel that is not yet open leaves every existing list open for its account. */
  lemma OpenForAfterOpen(queues: map<Channel, seq<Transaction>>, owner: map<Channel, AccountId>, account: AccountId,
                         chs: seq<Channel>, ch: Channel, chOwner: AccountId)
    requires OpenFor(queues, owner, account, chs) && ch !in queues
    ensures OpenFor(queues[ch := []], owner[ch := chOwner], account, chs)
    ensures chOwner == account ==> OpenFor(queues[ch := []], owner[ch := chOwner], account, chs + [ch])
    ensures Distinct(chs) ==> Distinct(chs + [ch])
  {
    var r := chs + [ch];
    assert forall i :: 0 <= i < |chs| ==> r[i] == chs[i];
  }

  /** Whether a list is open depends only on which channels are open, not on what they hold. */
  lemma OpenForSameKeys(queues: map<Channel, seq<Transaction>>, queues': map<Channel, seq<Transaction>>,
                        owner: map<Channel, AccountId>, account: AccountId, chs: seq<Channel>)
    requires OpenFor(queues, owner, account, chs) && queues'.Keys == queues.Keys
    ensures OpenFor(queues', owner, account, chs)
  {
    forall i | 0 <= i < |chs| ensures chs[i] in queues' {
      assert chs[i] in queues.Keys;
    }
  }

  /** Channel `c` was opened for `account` and is still listed under it. */
  ghost predicate Receives(chans: map<AccountId, seq<Channel>>, owner: map<Channel, AccountId>, c: Channel, account: AccountId)
  {
    c in owner && owner[c] == account && c in ChannelsOf(chans, account)
  }

  class SubscriberChannels {
    var chans: map<AccountId, seq<Channel>>
    /** What each channel holds: sent by `Broadcast`, not yet taken by `Receive`. */
    var queues: map<Channel, seq<Transaction>>
    var nextChannel: Channel
    /** The account each channel was opened for. */
    ghost var owner: map<Channel, AccountId>

    /**
      Every listed channel exists, belongs to the account it is listed
      under, and appears once in that list.
    */
    ghost predicate Valid()
      reads this
    {
      && (forall c :: c in queues ==> c < nextChannel && c in owner)
      && (forall a :: a in chans ==> OpenFor(queues, owner, a, chans[a]) && Distinct(chans[a]))
    }

    constructor ()
      ensures Valid() && chans == map[] && queues == map[]
    {
      chans := map[];
      queues := map[];
      nextChannel := 0;
      owner := map[];
    }

    /** register: open a fresh, empty channel and append it to the account's list. */
    method Register(account: AccountId) returns (ch: Channel)
      requires Valid()
      modifies this
      ensures Valid()
      ensures ch !in old(queues) && queues == old(queues)[ch := []]
      ensures chans == old(chans)[account := ChannelsOf(old(chans), account) + [ch]]
      ensures owner == old(owner)[ch := account]
      ensures nextChannel == old(nextChannel) + 1
    {
      ch := nextChannel;
      assert ch !in queues;
      forall a | a in chans
        ensures OpenFor(queues[ch := []], owner[ch := account], a, chans[a])
        ensures a == account ==> OpenFor(queues[ch := []], owner[ch := account], a, chans[a] + [ch]) && Distinct(chans[a] + [ch])
      {
        OpenForAfterOpen(queues, owner, a, chans[a], ch, account);
      }
      OpenForAfterOpen(queues, owner, account, [], ch, account);
      nextChannel := nextChannel + 1;
      queues := queues[ch := []];
      owner := owner[ch := account];
      chans := chans[account := ChannelsOf(chans, account) + [ch]];
    }

    /**
      unregister: scan the account's list and splice out the first entry
      equal to `ch`. An unknown account or channel changes nothing; the
      account's entry stays even when its list becomes empty.
    */
    method Unregister(account: AccountId, ch: Channel)
      requires Valid()
      modifies this
      ensures Valid()
      ensures account in old(chans) ==> chans == old(chans)[account := RemoveFirst(old(chans)[account], ch)]
      ensures account !in old(chans) ==> chans == old(chans)
      ensures queues == old(queues) && owner == old(owner) && nextChannel == old(nextChannel)
    {
      if account in chans {
        var chs := chans[account];
        var i := 0;
        while i < |chs|
          invariant 0 <= i <= |chs|
          invariant forall k :: 0 <= k < i ==> chs[k] != ch
        {
          if chs[i] == ch {
            RemoveFirstSplices(chs, ch, i);
            RemoveFirstKeeps(queues, owner, account, chs, ch);
            chans := chans[account := chs[..i] + chs[i + 1..]];
            return;
          }
          i := i + 1;
        }
        chans := chans[account := RemoveFirst(chs, ch)];
      }
    }

    /** broadcast: send `t` to every channel of the account, in list order. */
    method Broadcast(account: AccountId, t: Transaction)
      requires Valid()
      modifies this
      ensures Valid()
      ensures chans == old(chans) && owner == old(owner) && nextChannel == old(nextChannel)
      ensures queues.Keys == old(queues).Keys
      ensures queues == Sent(old(queues), ChannelsOf(chans, account), t)
    {
      var chs := ChannelsOf(chans, account);
      assert forall k :: 0 <= k < |chs| ==> chs[k] in queues;
      var q := queues;
      var i := 0;
      while i < |chs|
        invariant 0 <= i <= |chs|
        invariant q.Keys == queues.Keys
        invariant q == Sent(queues, chs[..i], t)
        modifies {}
      {
        SentStep(queues, chs, t, i);
        q := q[chs[i] := q[chs[i]] + [t]];
        i := i + 1;
      }
      assert chs[..|chs|] == chs;
      forall a | a in chans ensures OpenFor(q, owner, a, chans[a]) {
        OpenForSameKeys(queues, q, owner, a, chans[a]);
      }
      queues := q;
    }

    /** The subscriber's side: take the oldest buffered transaction, if any. */
    method Receive(ch: Channel) returns (t: Option<Transaction>)
      requires Valid() && ch in queues
      modifies this
      ensures Valid()
      ensures old(queues)[ch] == [] ==> t.None? && queues == old(queues)
      ensures old(queues)[ch] != [] ==> t == Some(old(queues)[ch][0]) && queues == old(queues)[ch := old(queues)[ch][1..]]
      ensures chans == old(chans) && owner == old(owner) && nextChannel == old(nextChannel)
    {
      if queues[ch] == [] {
        return None;
      }
      t := Some(queues[ch][0]);
      queues := queues[ch := queues[ch][1..]];
    }
  }

  /**
    A broadcast reaches exactly the account's subscribed channels, each once,
    and no channel of any other account.
  */
  lemma BroadcastReachesOnlyAccount(s: SubscriberChannels, account: AccountId, t: Transaction, c: Channel)
    requires s.Valid() && c in s.queues
    ensures Sent(s.queues, ChannelsOf(s.chans, account), t)[c] ==
      if Receives(s.chans, s.owner, c, account) then s.queues[c] + [t] else s.queues[c]
  {
    var chs := ChannelsOf(s.chans, account);
    SentDelivers(s.queues, chs, t, c);
    if c in chs {
      var i :| 0 <= i < |chs| && chs[i] == c;
      assert s.owner[c] == account;
    }
  }
}
