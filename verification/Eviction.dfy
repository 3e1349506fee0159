/**
 Eviction of a workflow: every receiver still blocked on a signal channel leaves it. The signals that
 were delivered are untouched by that, and so are the receivers that have not left yet.
 */
module Eviction {
  import opened Basics
  import opened Futures
  import opened Interpreter
  import opened Activation
  import opened Invariants
  import opened Progress
  import opened Guarantees

  datatype Leaving = Leaving(name: string, waiter: FutureId)

  function EvictOne(channels: map<string, Channel>, leaving: Leaving): map<string, Channel> {
    if leaving.name !in channels then channels
    else
      var c := channels[leaving.name];
      channels[leaving.name := c.(waiters := RemoveWaiter(c.waiters, leaving.waiter))]
  }

  function EvictAll(channels: map<string, Channel>, leavings: seq<Leaving>): map<string, Channel>
    decreases |leavings|
  {
    if leavings == [] then channels else EvictAll(EvictOne(channels, leavings[0]), leavings[1..])
  }

  /** The waiter is taken out where it stands; the others keep their order. */
  lemma {:induction false} RemoveWaiterAt(waiters: seq<FutureId>, k: nat)
    requires k < |waiters| && waiters[k] !in waiters[..k]
    ensures RemoveWaiter(waiters, waiters[k]) == waiters[..k] + waiters[k + 1..]
  {
    if k > 0 {
      assert waiters[1..][..k - 1] == waiters[..k][1..];
      RemoveWaiterAt(waiters[1..], k - 1);
      assert waiters[..k] == [waiters[0]] + waiters[1..][..k - 1];
    }
  }

  lemma {:induction false} RemoveWaiterAbsent(waiters: seq<FutureId>, waiter: FutureId)
    requires waiter !in waiters
    ensures RemoveWaiter(waiters, waiter) == waiters
  {
    if waiters != [] {
      RemoveWaiterAbsent(waiters[1..], waiter);
    }
  }

  ghost predicate Distinct(waiters: seq<FutureId>) {
    forall i, j :: 0 <= i < j < |waiters| ==> waiters[i] != waiters[j]
  }

  lemma RemoveWaiterKeepsOthers(waiters: seq<FutureId>, waiter: FutureId)
    requires Distinct(waiters)
    ensures Distinct(RemoveWaiter(waiters, waiter))
    ensures forall w :: w in RemoveWaiter(waiters, waiter) <==> w in waiters && w != waiter
  {
    if waiter in waiters {
      var k :| 0 <= k < |waiters| && waiters[k] == waiter;
      RemoveWaiterAt(waiters, k);
      var rest := waiters[..k] + waiters[k + 1..];
      forall w | w in waiters && w != waiter
        ensures w in rest
      {
        var j :| 0 <= j < |waiters| && waiters[j] == w;
        assert if j < k then rest[j] == w else rest[j - 1] == w;
      }
    } else {
      RemoveWaiterAbsent(waiters, waiter);
    }
  }

  lemma RemoveWaiterKeeps(h: Store, c: Channel, waiter: FutureId)
    requires ChannelOk(h, c)
    ensures ChannelOk(h, c.(waiters := RemoveWaiter(c.waiters, waiter)))
    ensures forall w :: w in RemoveWaiter(c.waiters, waiter) <==> w in c.waiters && w != waiter
  {
    RemoveWaiterKeepsOthers(c.waiters, waiter);
    var rest := RemoveWaiter(c.waiters, waiter);
    forall i | 0 <= i < |rest|
      ensures WaiterOk(h, rest[i])
    {
      assert rest[i] in c.waiters;
    }
  }

  lemma EvictOneKeeps(h: Store, channels: map<string, Channel>, leaving: Leaving)
    requires ChannelsOk(h, channels)
    ensures ChannelsOk(h, EvictOne(channels, leaving))
  {
    if leaving.name in channels {
      var after := EvictOne(channels, leaving);
      RemoveWaiterKeeps(h, channels[leaving.name], leaving.waiter);
      forall n, m, i, j | n in after && m in after && n != m
          && 0 <= i < |after[n].waiters| && 0 <= j < |after[m].waiters|
        ensures after[n].waiters[i] != after[m].waiters[j]
      {
        assert after[n].waiters[i] in channels[n].waiters && after[m].waiters[j] in channels[m].waiters;
      }
    }
  }

  lemma {:induction false} EvictAllKeeps(h: Store, channels: map<string, Channel>, leavings: seq<Leaving>, n: string)
    requires ChannelsOk(h, channels)
    ensures ChannelsOk(h, EvictAll(channels, leavings))
    ensures n in EvictAll(channels, leavings) <==> n in channels
    ensures n in channels ==>
              && EvictAll(channels, leavings)[n].buffer == channels[n].buffer
              && EvictAll(channels, leavings)[n].received == channels[n].received
              && forall w :: w in EvictAll(channels, leavings)[n].waiters <==>
                             w in channels[n].waiters && Leaving(n, w) !in leavings
    decreases |leavings|
  {
    if leavings != [] {
      var after := EvictOne(channels, leavings[0]);
      EvictOneKeeps(h, channels, leavings[0]);
      EvictAllKeeps(h, after, leavings[1..], n);
      if n in channels {
        RemoveWaiterKeeps(h, channels[n], leavings[0].waiter);
        forall w
          ensures w in EvictAll(channels, leavings)[n].waiters <==> w in channels[n].waiters && Leaving(n, w) !in leavings
        {
          assert w in after[n].waiters <==> w in channels[n].waiters && leavings[0] != Leaving(n, w);
          assert Leaving(n, w) in leavings <==> leavings[0] == Leaving(n, w) || Leaving(n, w) in leavings[1..];
        }
      }
    }
  }

  /**
   Whichever receivers leave after a run, in whatever order, every signal is still accounted for, those
   receivers wait no longer and all others still do.
   */
  lemma EvictionConservesSignals(
      env: Env, mem: Mem, body: Local, inputs: seq<Input>, leavings: seq<Leaving>, n: string)
    requires RunOf(env, mem, body, inputs).RunOk?
    ensures var s := RunOf(env, mem, body, inputs).state;
            var channel := ChannelOf(s.(channels := EvictAll(s.channels, leavings)), n);
            && channel.received + channel.buffer == SignalInputs(AllJobs(inputs), n)
            && (channel.buffer == [] || channel.waiters == [])
            && (forall w :: w in channel.waiters ==> w < |s.futures| && !s.futures[w].ready)
            && (forall w :: w in channel.waiters <==> w in ChannelOf(s, n).waiters && Leaving(n, w) !in leavings)
  {
    RunSound(env, mem, body, inputs);
    SignalsConserved(env, mem, body, inputs, n);
    var s := RunOf(env, mem, body, inputs).state;
    EvictAllKeeps(s.futures, s.channels, leavings, n);
    if n in s.channels {
      assert ChannelOk(s.futures, EvictAll(s.channels, leavings)[n]);
    }
  }
}
