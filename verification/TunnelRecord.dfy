/**
 * The mutable side of the tunnel: the mutex-guarded record with its
 * close-and-replace broadcast channel, and the chain of SSH clients.  Each
 * method is one lock section or one loop of the source; its effect is the one
 * TunnelModel uses for the corresponding step.
 */
module TunnelRecord {
  import opened Basics
  import opened TunnelModel

  /** A `chan struct{}` that is only ever closed. */
  class Broadcast {
    var closed: bool

    constructor ()
      ensures !closed
    {
      closed := false;
    }

    /** Closing a closed channel panics. */
    method Close()
      requires !closed
      modifies this
      ensures closed
    {
      closed := true;
    }
  }

  class Record {
    var phase: Phase
    var err: Option<Error>
    var client: Option<Client>
    var changed: Broadcast
    var conns: set<ConnId>
    var cancelled: bool
    ghost var hist: seq<Status>
    ghost var channels: seq<Broadcast>

    /** `changed` is the last of the channels, and exactly that one is open. */
    ghost predicate ChannelsOk()
      reads this, channels
    {
      && |channels| > 0 && Last(channels) == changed
      && (forall i, j :: 0 <= i < j < |channels| ==> channels[i] != channels[j])
      && (forall i :: 0 <= i < |channels| ==> (channels[i].closed <==> i < |channels| - 1))
    }

    /** channels[i] was `changed` while hist[i] was current. */
    ghost predicate Valid()
      reads this, channels
    {
      |hist| == |channels| && ChannelsOk() && Last(hist) == Status(phase, err, client)
    }

    /** Close `changed` and replace it. */
    method Wake()
      requires ChannelsOk()
      modifies this`changed, this`channels, changed
      ensures ChannelsOk() && old(changed).closed && fresh(changed) && channels == old(channels) + [changed]
    {
      changed.Close();
      var ch := new Broadcast();
      changed := ch;
      channels := channels + [ch];
    }

    constructor ()
      ensures Valid() && hist == Init().hist && conns == Init().cn.tracked && !cancelled
      ensures fresh(changed)
    {
      phase, err, client, conns, cancelled := Connecting, None, None, {}, false;
      var ch := new Broadcast();
      changed := ch;
      hist, channels := [Status(Connecting, None, None)], [ch];
    }

    /** setState: publish, wake every waiter by closing the channel, install a new one. */
    method SetState(next: Phase, nextErr: Option<Error>, nextClient: Option<Client>) returns (notice: bool)
      requires Valid()
      modifies this, changed
      ensures Valid()
      ensures hist == Publish(old(hist), next, nextErr, nextClient)
      ensures notice <==> Announced(hist)
      ensures old(changed).closed && fresh(changed) && channels == old(channels) + [changed]
      ensures conns == old(conns) && cancelled == old(cancelled)
    {
      var e := nextErr;
      if next == Connecting && e.None? && phase == Failed {
        e := err;
      }
      notice := phase != next || ErrText(err) != ErrText(e);
      phase, err, client := next, e, nextClient;
      Wake();
      hist := hist + [Status(next, e, nextClient)];
    }

    /** The lock section of waitClient: the status and the channel that announces the next one. */
    method Read() returns (st: Status, ch: Broadcast)
      requires Valid()
      ensures st == Last(hist) && ch == channels[|hist| - 1] && !ch.closed
    {
      st, ch := Status(phase, err, client), changed;
    }

    /**
     * waitClient's lock section, and then any number of publications: the channel it came away with is closed exactly
     * when there was one, and until then the status it came away with is the current one and the channel the one that
     * the next publication closes.
     */
    method ReadThenPublish(updates: seq<Status>) returns (st: Status, ch: Broadcast)
      requires Valid()
      modifies this, changed
      ensures Valid() && |hist| == |old(hist)| + |updates| && old(hist) <= hist
      ensures ch.closed <==> updates != []
      ensures !ch.closed ==> st == Status(phase, err, client) && ch == changed
      ensures ch.closed ==> st == hist[|old(hist)| - 1] && ch != changed
    {
      st, ch := Read();
      for n := 0 to |updates|
        invariant Valid() && |hist| == |old(hist)| + n && old(hist) <= hist && old(channels) <= channels
        invariant n == 0 ==> changed == old(changed)
        invariant n > 0 ==> fresh(changed)
      {
        var notice := SetState(updates[n].phase, updates[n].err, updates[n].client);
      }
    }

    /** track: register unless the tunnel is cancelled, or remove. */
    method Track(c: ConnId, add: bool) returns (ok: bool)
      requires Valid()
      modifies this`conns
      ensures Valid()
      ensures ok <==> !add || !cancelled
      ensures conns == if !add then old(conns) - {c} else if cancelled then old(conns) else old(conns) + {c}
    {
      if !add {
        conns := conns - {c};
        return true;
      }
      if cancelled {
        return false;
      }
      conns := conns + {c};
      return true;
    }
  }

  // ---------------------------------------------------------------- dialChain

  datatype HopError = HopError(server: nat, via: Option<nat>, dial: bool)

  function Range(first: nat, n: nat): (r: seq<Client>)
    ensures |r| == n && forall i :: 0 <= i < n ==> r[i] == first + i
  {
    seq(n, i requires 0 <= i => first + i)
  }

  function Reversed(s: seq<Client>): seq<Client> {
    if s == [] then [] else [Last(s)] + Reversed(s[..|s| - 1])
  }

  class Dialer {
    var created: nat                 // clients created so far; they are numbered in that order
    var closes: seq<Client>

    /** closeClients: from the exit backwards. */
    method CloseClients(clients: seq<Client>)
      modifies this`closes
      ensures closes == old(closes) + Reversed(clients)
    {
      var i := |clients|;
      assert clients[..i] == clients;
      while i > 0
        invariant 0 <= i <= |clients|
        invariant closes + Reversed(clients[..i]) == old(closes) + Reversed(clients)
      {
        i := i - 1;
        assert clients[..i + 1][..i] == clients[..i];
        closes := closes + [clients[i]];
      }
    }

    /**
     * dialChain over a chain of `hops` servers; outcome(i) says whether hop i comes up, or whether
     * it failed while dialling.  Either the whole chain is up and nothing was closed, or the first
     * failing hop is reported and every client created before it is closed, last hop first.
     */
    method DialChain(hops: nat, outcome: nat -> Result<(), bool>) returns (r: Result<seq<Client>, HopError>)
      modifies this
      ensures r.Ok? <==> forall i :: 0 <= i < hops ==> outcome(i).Ok?
      ensures r.Ok? ==> r.value == Range(old(created), hops) && created == old(created) + hops && closes == old(closes)
      ensures r.Err? ==>
        && r.error.server < hops && outcome(r.error.server) == Err(r.error.dial)
        && (forall i :: 0 <= i < r.error.server ==> outcome(i).Ok?)
        && r.error.via == (if r.error.server == 0 then None else Some(r.error.server - 1))
        && created == old(created) + r.error.server
        && closes == old(closes) + Reversed(Range(old(created), r.error.server))
    {
      var clients: seq<Client> := [];
      var i := 0;
      while i < hops
        invariant 0 <= i <= hops
        invariant forall j :: 0 <= j < i ==> outcome(j).Ok?
        invariant clients == Range(old(created), i) && created == old(created) + i && closes == old(closes)
      {
        match outcome(i) {
          case Err(dial) =>
            CloseClients(clients);
            return Err(HopError(i, if i > 0 then Some(i - 1) else None, dial));
          case Ok(_) =>
            clients := clients + [created];
            created := created + 1;
        }
        i := i + 1;
      }
      return Ok(clients);
    }
  }

  // ---------------------------------------------------------------- notices

  datatype Shown = Shown(tunnel: nat, notice: Notice)

  /** What was shown for one tunnel, in order. */
  function ShownFor(log: seq<Shown>, t: nat): seq<Notice> {
    if log == [] then []
    else ShownFor(log[..|log| - 1], t) + if Last(log).tunnel == t then [Last(log).notice] else []
  }

  lemma OneMoreShown(log: seq<Shown>, n: Shown, t: nat)
    ensures ShownFor(log + [n], t) == ShownFor(log, t) + if n.tunnel == t then [n.notice] else []
  {
    assert (log + [n])[..|log|] == log;
  }

  /** The notified map of App, with what has been shown; forgetting a tunnel is logged too. */
  class Notifier {
    var notified: set<nat>
    var log: seq<Shown>

    function Of(t: nat): Notices
      reads this
    {
      Notices(t in notified, ShownFor(log, t))
    }

    constructor ()
      ensures forall t :: Of(t) == Init().app
    {
      notified, log := {}, [];
    }

    method Show(t: nat, n: Notice)
      modifies this`log
      ensures forall u :: ShownFor(log, u) == old(ShownFor(log, u)) + if t == u then [n] else []
    {
      forall u ensures ShownFor(log + [Shown(t, n)], u) == ShownFor(log, u) + if t == u then [n] else [] {
        OneMoreShown(log, Shown(t, n), u);
      }
      log := log + [Shown(t, n)];
    }

    /** onTunnelChange: one tunnel moves on as in the state machine, and no other is touched. */
    method OnTunnelChange(t: nat, st: Status)
      modifies this
      ensures Of(t) == OnChange(old(Of(t)), st)
      ensures forall u :: u != t ==> Of(u) == old(Of(u))
    {
      if st.phase == Failed && t !in notified {
        notified := notified + {t};
        Show(t, Failure);
      } else if st.phase == Connected && t in notified {
        notified := notified - {t};
        Show(t, Recovery);
      } else if st.phase == Stopped {
        notified := notified - {t};
        Show(t, Forgotten);
      }
    }
  }
}
