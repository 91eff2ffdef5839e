/** Hot reload: the list of running tunnels follows the configuration. */
module Reload {
  import opened Basics
  import opened ConfigModel
  import ConfigWellFormed
  import Fingerprint

  /** A tunnel, as far as the list is concerned: whether it holds its port. */
  class Tunnel {
    const proxy: Proxy
    var listening: bool
    var listenFail: bool
    var stopped: bool

    constructor (p: Proxy)
      ensures proxy == p && !listening && !listenFail && !stopped
    {
      proxy := p;
      listening, listenFail, stopped := false, false, false;
    }
  }

  datatype Event = StopOf(t: Tunnel) | StartOf(t: Tunnel)

  /** These tunnels stopped, respectively started, one after the other. */
  function Stops(ts: seq<Tunnel>): seq<Event> {
    if ts == [] then [] else Stops(ts[..|ts| - 1]) + [StopOf(Last(ts))]
  }

  function Starts(ts: seq<Tunnel>): seq<Event> {
    if ts == [] then [] else Starts(ts[..|ts| - 1]) + [StartOf(Last(ts))]
  }

  lemma StopsMore(ts: seq<Tunnel>, i: nat)
    requires i < |ts|
    ensures Stops(ts[..i + 1]) == Stops(ts[..i]) + [StopOf(ts[i])]
  {
    assert ts[..i + 1][..i] == ts[..i];
  }

  lemma StartsMore(ts: seq<Tunnel>, i: nat)
    requires i < |ts|
    ensures Starts(ts[..i + 1]) == Starts(ts[..i]) + [StartOf(ts[i])]
  {
    assert ts[..i + 1][..i] == ts[..i];
  }

  predicate DistinctListens(proxies: seq<Proxy>) {
    forall i, j :: 0 <= i < j < |proxies| ==> proxies[i].listen != proxies[j].listen
  }

  predicate Apart(ts: seq<Tunnel>) {
    forall i, j :: 0 <= i < j < |ts| ==> ts[i].proxy.listen != ts[j].proxy.listen
  }

  /** The ports this process holds, and those other programs hold at the moment. */
  class Ports {
    var bound: map<string, Tunnel>
    var outside: set<string>
    ghost var log: seq<Event>

    constructor (outside: set<string>)
      ensures bound == map[] && log == [] && this.outside == outside
    {
      this.outside := outside;
      bound, log := map[], [];
    }

    /** Tunnel.Start, as far as its port is concerned. */
    method Start(t: Tunnel)
      modifies t, this
      ensures t.listening == (t.proxy.listen !in old(bound) && t.proxy.listen !in outside)
      ensures t.listenFail == !t.listening && t.stopped == old(t.stopped)
      ensures bound == if t.listening then old(bound)[t.proxy.listen := t] else old(bound)
      ensures outside == old(outside) && log == old(log) + [StartOf(t)]
    {
      var free := t.proxy.listen !in bound && t.proxy.listen !in outside;
      t.listening, t.listenFail := free, !free;
      if free { bound := bound[t.proxy.listen := t]; }
      log := log + [StartOf(t)];
    }

    /** Tunnel.Stop, as far as its port is concerned. */
    method Stop(t: Tunnel)
      modifies t, this
      ensures t.stopped && !t.listening && t.listenFail == old(t.listenFail)
      ensures bound == if old(t.listening) then old(bound) - {t.proxy.listen} else old(bound)
      ensures outside == old(outside) && log == old(log) + [StopOf(t)]
    {
      if t.listening { bound := bound - {t.proxy.listen}; }
      t.stopped, t.listening := true, false;
      log := log + [StopOf(t)];
    }

    method StopAll(ts: seq<Tunnel>)
      requires Apart(ts)
      requires forall l :: l in bound ==> bound[l].proxy.listen == l
      requires forall t :: t in ts ==> (t.listening <==> t.proxy.listen in bound && bound[t.proxy.listen] == t)
      modifies ts, this
      ensures forall t :: t in ts ==> t.stopped && !t.listening
      ensures bound == Without(old(bound), ts)
      ensures outside == old(outside) && log == old(log) + Stops(ts)
    {
      for i := 0 to |ts|
        invariant forall j :: 0 <= j < i ==> ts[j].stopped && !ts[j].listening
        invariant forall j :: i <= j < |ts| ==> ts[j].listening == old(ts[j].listening)
        invariant bound == Without(old(bound), ts[..i])
        invariant outside == old(outside) && log == old(log) + Stops(ts[..i])
      {
        WithoutMore(old(bound), ts, i);
        StopsMore(ts, i);
        assert ts[i] in ts;
        Stop(ts[i]);
      }
      assert ts[..|ts|] == ts;
    }

    method StartAll(ts: seq<Tunnel>)
      requires Apart(ts)
      requires forall t :: t in ts ==> t.proxy.listen !in bound
      modifies ts, this
      ensures forall t :: t in ts ==>
        t.listening == (t.proxy.listen !in outside) && t.listenFail == !t.listening && t.stopped == old(t.stopped)
      ensures bound == old(bound) + Holds(ts, outside)
      ensures outside == old(outside) && log == old(log) + Starts(ts)
    {
      for i := 0 to |ts|
        invariant forall j :: 0 <= j < i ==>
          ts[j].listening == (ts[j].proxy.listen !in outside) && ts[j].listenFail == !ts[j].listening
        invariant forall j :: 0 <= j < |ts| ==> ts[j].stopped == old(ts[j].stopped)
        invariant bound == old(bound) + Holds(ts[..i], outside)
        invariant outside == old(outside) && log == old(log) + Starts(ts[..i])
      {
        assert ts[i] in ts;
        HoldsMore(ts, i, outside, old(bound));
        StartsMore(ts, i);
        Start(ts[i]);
      }
      assert ts[..|ts|] == ts;
    }
  }

  /** The ports still held when these tunnels have given theirs up. */
  function Without(bound: map<string, Tunnel>, ts: seq<Tunnel>): map<string, Tunnel> {
    map l | l in bound && bound[l] !in ts :: bound[l]
  }

  lemma WithoutMore(bound: map<string, Tunnel>, ts: seq<Tunnel>, i: nat)
    requires i < |ts| && Apart(ts) && forall l :: l in bound ==> bound[l].proxy.listen == l
    ensures var rest, l := Without(bound, ts[..i]), ts[i].proxy.listen;
      Without(bound, ts[..i + 1]) == if l in bound && bound[l] == ts[i] then rest - {l} else rest
    ensures forall j :: 0 <= j < |ts| && j != i ==> ts[j] != ts[i]
  {
    assert ts[..i + 1] == ts[..i] + [ts[i]];
  }

  /** The ports that these tunnels hold once started, when others hold `outside`. */
  ghost function Holds(ts: seq<Tunnel>, outside: set<string>): map<string, Tunnel> {
    if ts == [] then map[]
    else
      var held, t := Holds(ts[..|ts| - 1], outside), Last(ts);
      if t.proxy.listen in outside then held else held[t.proxy.listen := t]
  }

  lemma {:induction false} HoldsOwn(ts: seq<Tunnel>, outside: set<string>)
    requires Apart(ts)
    ensures forall l :: l in Holds(ts, outside) ==>
      Holds(ts, outside)[l] in ts && Holds(ts, outside)[l].proxy.listen == l && l !in outside
    ensures forall t :: t in ts && t.proxy.listen !in outside ==>
      t.proxy.listen in Holds(ts, outside) && Holds(ts, outside)[t.proxy.listen] == t
    decreases |ts|
  {
    if ts != [] {
      var init := ts[..|ts| - 1];
      assert ts == init + [Last(ts)];
      HoldsOwn(init, outside);
      assert forall t :: t in init ==> t.proxy.listen != Last(ts).proxy.listen;
    }
  }

  lemma HoldsStep(ts: seq<Tunnel>, i: nat, outside: set<string>)
    requires i < |ts|
    ensures var held, l := Holds(ts[..i], outside), ts[i].proxy.listen;
      Holds(ts[..i + 1], outside) == if l in outside then held else held[l := ts[i]]
  {
    assert ts[..i + 1][..i] == ts[..i];
  }

  lemma NotYetHeld(ts: seq<Tunnel>, i: nat, outside: set<string>)
    requires i < |ts| && Apart(ts)
    ensures ts[i].proxy.listen !in Holds(ts[..i], outside)
    ensures forall j :: 0 <= j < |ts| && j != i ==> ts[j] != ts[i]
  {
    HoldsOwn(ts[..i], outside);
    assert forall t :: t in ts[..i] ==> t.proxy.listen != ts[i].proxy.listen;
  }

  lemma PlusOne(bound: map<string, Tunnel>, held: map<string, Tunnel>, l: string, t: Tunnel)
    ensures bound + held[l := t] == (bound + held)[l := t]
  {
  }

  lemma HoldsMore(ts: seq<Tunnel>, i: nat, outside: set<string>, bound: map<string, Tunnel>)
    requires i < |ts| && Apart(ts) && ts[i].proxy.listen !in bound
    ensures var now, l := bound + Holds(ts[..i], outside), ts[i].proxy.listen;
      l !in now && bound + Holds(ts[..i + 1], outside) == if l in outside then now else now[l := ts[i]]
    ensures forall j :: 0 <= j < |ts| && j != i ==> ts[j] != ts[i]
  {
    HoldsStep(ts, i, outside);
    NotYetHeld(ts, i, outside);
    PlusOne(bound, Holds(ts[..i], outside), ts[i].proxy.listen, ts[i]);
  }

  type Print = Proxy -> string

  /** Equal fingerprints mean equal listen addresses. */
  ghost predicate TellsListen(fp: Print) {
    forall p, q :: fp(p) == fp(q) ==> p.listen == q.listen
  }

  lemma FingerprintTellsListen(isPrint: Fingerprint.IsPrint)
    ensures TellsListen((p: Proxy) => Fingerprint.FingerprintOf(isPrint, p))
  {
    forall p, q | Fingerprint.FingerprintOf(isPrint, p) == Fingerprint.FingerprintOf(isPrint, q)
      ensures p.listen == q.listen {
      Fingerprint.FingerprintsAgree(isPrint, p, q);
      assert Fingerprint.PartsOf(p) == Fingerprint.PartsOf(q);
    }
  }

  /** The tunnels run the first proxies, in order. */
  ghost predicate Mirrors(fp: Print, ts: seq<Tunnel>, proxies: seq<Proxy>) {
    |ts| <= |proxies| && forall i :: 0 <= i < |ts| ==> fp(ts[i].proxy) == fp(proxies[i])
  }

  /** The old list is kept or stopped, the new one kept or started. */
  ghost predicate Splits(was: seq<Tunnel>, now: seq<Tunnel>, kept: set<Tunnel>, stopped: seq<Tunnel>,
                         started: seq<Tunnel>) {
    && (forall t :: t in was ==> (t in kept <==> t in now) && (t in stopped <==> t !in now))
    && (forall t :: t in now ==> (t in started <==> t !in was))
    && (forall t :: t in kept ==> t in was)
    && (forall t :: t in stopped ==> t in was)
    && (forall t :: t in started ==> t in now)
  }

  lemma SplitsApart(was: seq<Tunnel>, now: seq<Tunnel>, kept: set<Tunnel>, stopped: seq<Tunnel>, started: seq<Tunnel>)
    requires Splits(was, now, kept, stopped, started)
    ensures forall t :: t in started ==> t !in stopped && t !in kept && t !in was
    ensures forall t :: t in kept ==> t in now
  {
  }

  lemma MirrorsMore(fp: Print, ts: seq<Tunnel>, proxies: seq<Proxy>, t: Tunnel)
    requires TellsListen(fp) && Mirrors(fp, ts, proxies) && DistinctListens(proxies)
    requires |ts| < |proxies| && fp(t.proxy) == fp(proxies[|ts|])
    ensures Mirrors(fp, ts + [t], proxies)
    ensures forall u :: u in ts ==> u.proxy.listen != t.proxy.listen
  {
    forall u | u in ts ensures u.proxy.listen != t.proxy.listen {
      var j :| 0 <= j < |ts| && ts[j] == u;
      assert u.proxy.listen == proxies[j].listen && t.proxy.listen == proxies[|ts|].listen;
    }
  }

  lemma MirrorsApart(fp: Print, ts: seq<Tunnel>, proxies: seq<Proxy>)
    requires TellsListen(fp) && Mirrors(fp, ts, proxies) && DistinctListens(proxies)
    ensures Apart(ts)
  {
    forall i, j | 0 <= i < j < |ts| ensures ts[i].proxy.listen != ts[j].proxy.listen {
      assert ts[i].proxy.listen == proxies[i].listen && ts[j].proxy.listen == proxies[j].listen;
    }
  }

  lemma AppendApart(ts: seq<Tunnel>, t: Tunnel)
    requires Apart(ts) && forall u :: u in ts ==> u.proxy.listen != t.proxy.listen
    ensures Apart(ts + [t])
  {
    forall i | 0 <= i < |ts| ensures ts[i].proxy.listen != t.proxy.listen {
      assert ts[i] in ts;
    }
  }

  function Resolved(resolve: string -> string, keys: seq<string>): (r: seq<string>)
    ensures |r| == |keys| && forall i :: 0 <= i < |keys| ==> r[i] == resolve(keys[i])
  {
    seq(|keys|, i requires 0 <= i < |keys| => resolve(keys[i]))
  }

  function WithKeys(resolve: string -> string, s: Server): Server {
    s.(keys := Resolved(resolve, s.keys))
  }

  /** Resolving the keys of a shared server once per chain changes nothing, if resolving a path twice does not. */
  lemma KeysResolvedTwice(resolve: string -> string, s: Server)
    requires forall k :: resolve(resolve(k)) == resolve(k)
    ensures WithKeys(resolve, WithKeys(resolve, s)) == WithKeys(resolve, s)
  {
    assert Resolved(resolve, Resolved(resolve, s.keys)) == Resolved(resolve, s.keys);
  }

  function WithChainKeys(resolve: string -> string, p: Proxy): Proxy {
    p.(chain := seq(|p.chain|, i requires 0 <= i < |p.chain| => WithKeys(resolve, p.chain[i])))
  }

  /** LoadConfig on the text of the file: the key paths of every chain are resolved. */
  function LoadConfig(isIP: IsIP, resolve: string -> string, text: string): Result<Config, ConfigError> {
    var c :- ParseConfig(isIP, text);
    Ok(c.(proxies := seq(|c.proxies|, i requires 0 <= i < |c.proxies| => WithChainKeys(resolve, c.proxies[i]))))
  }

  lemma LoadedListensAreDistinct(isIP: IsIP, resolve: string -> string, text: string)
    requires ConfigWellFormed.IPSyntax(isIP)
    ensures LoadConfig(isIP, resolve, text).Ok? ==> DistinctListens(LoadConfig(isIP, resolve, text).value.proxies)
  {
    ConfigWellFormed.AcceptedConfigIsOk(isIP, text);
  }

  class App {
    const fp: Print
    const ports: Ports
    var tunnels: seq<Tunnel>
    var cfgErr: Option<ConfigError>
    var closed: bool

    constructor (fp: Print, ports: Ports)
      requires TellsListen(fp) && ports.bound == map[]
      ensures Valid() && tunnels == [] && !closed && this.ports == ports && this.fp == fp
    {
      this.fp, this.ports := fp, ports;
      tunnels, cfgErr, closed := [], None, false;
    }

    /** Distinct addresses; every tunnel of the list is started and not stopped; the ports held are theirs. */
    ghost predicate Valid()
      reads this, ports, tunnels
    {
      && TellsListen(fp) && Apart(tunnels)
      && (forall t :: t in tunnels ==> t.listening != t.listenFail && !t.stopped)
      && (forall t :: t in tunnels && t.listening ==> t.proxy.listen in ports.bound && ports.bound[t.proxy.listen] == t)
      && (forall l :: l in ports.bound ==>
        ports.bound[l] in tunnels && ports.bound[l].listening && ports.bound[l].proxy.listen == l)
      && (closed ==> tunnels == [])
    }

    /** The tunnels that got their port, by fingerprint. */
    method Running() returns (running: map<string, Tunnel>)
      requires Valid()
      ensures forall f :: f in running ==> running[f] in tunnels && running[f].listening && fp(running[f].proxy) == f
      ensures forall t :: t in tunnels && t.listening ==> fp(t.proxy) in running && running[fp(t.proxy)] == t
    {
      running := map[];
      for i := 0 to |tunnels|
        invariant forall f :: f in running ==>
          running[f] in tunnels[..i] && running[f].listening && fp(running[f].proxy) == f
        invariant forall j :: 0 <= j < i && tunnels[j].listening ==>
          fp(tunnels[j].proxy) in running && running[fp(tunnels[j].proxy)] == tunnels[j]
      {
        var t := tunnels[i];
        if !t.listenFail { running := running[fp(t.proxy) := t]; }
      }
    }

    /** The tunnel for one proxy: a running one if there is one, a new one otherwise. */
    method Place(running: map<string, Tunnel>, p: Proxy) returns (t: Tunnel)
      requires forall f :: f in running ==> fp(running[f].proxy) == f
      ensures fp(t.proxy) == fp(p)
      ensures if fp(p) in running then t == running[fp(p)] else fresh(t) && t.proxy == p && !t.stopped
    {
      if fp(p) in running {
        t := running[fp(p)];
      } else {
        t := new Tunnel(p);
      }
    }

    /** The new list: a running tunnel where there is one, a new tunnel otherwise. */
    method Plan(running: map<string, Tunnel>, proxies: seq<Proxy>) returns (next: seq<Tunnel>, started: seq<Tunnel>)
      requires TellsListen(fp) && DistinctListens(proxies)
      requires forall f :: f in running ==> fp(running[f].proxy) == f
      ensures Mirrors(fp, next, proxies) && |next| == |proxies| && Apart(next) && Apart(started)
      ensures forall i :: 0 <= i < |next| && fp(proxies[i]) in running ==> next[i] == running[fp(proxies[i])]
      ensures forall i :: 0 <= i < |next| && fp(proxies[i]) !in running ==> next[i] in started
      ensures fresh(started)
      ensures forall t :: t in started ==> t in next && !t.stopped
    {
      next, started := [], [];
      for i := 0 to |proxies|
        invariant |next| == i && Mirrors(fp, next, proxies) && Apart(started)
        invariant forall j :: 0 <= j < i && fp(proxies[j]) in running ==> next[j] == running[fp(proxies[j])]
        invariant forall j :: 0 <= j < i && fp(proxies[j]) !in running ==> next[j] in started
        invariant fresh(started)
        invariant forall t :: t in started ==> t in next && !t.stopped
      {
        var p := proxies[i];
        var t := Place(running, p);
        MirrorsMore(fp, next, proxies, t);
        if fp(p) !in running {
          AppendApart(started, t);
          started := started + [t];
        }
        next := next + [t];
      }
      MirrorsApart(fp, next, proxies);
    }

    /** The tunnels of the list that the new one leaves out. */
    method LeftOut(next: seq<Tunnel>) returns (stopped: seq<Tunnel>)
      requires Apart(tunnels)
      ensures Apart(stopped) && forall t :: t in stopped <==> t in tunnels && t !in next
    {
      stopped := [];
      for i := 0 to |tunnels|
        invariant forall t :: t in stopped <==> t in tunnels[..i] && t !in next
        invariant Apart(stopped)
      {
        assert forall t :: t in tunnels[..i] ==> t.proxy.listen != tunnels[i].proxy.listen;
        if tunnels[i] !in next { stopped := stopped + [tunnels[i]]; }
      }
    }

    /** t is kept by a reload: it holds its port, and its proxy is still in the configuration, unchanged. */
    ghost predicate Unchanged(t: Tunnel, proxies: seq<Proxy>)
      reads t
    {
      t.listening && exists i :: 0 <= i < |proxies| && fp(proxies[i]) == fp(t.proxy)
    }

    /** The tunnels that a reload with these proxies keeps. */
    ghost function Kept(proxies: seq<Proxy>): set<Tunnel>
      reads this, tunnels
    {
      set t | t in tunnels && Unchanged(t, proxies)
    }

    /** The decisions of Reload: the new list, what is new in it and what is left out. */
    method Sort(proxies: seq<Proxy>) returns (next: seq<Tunnel>, started: seq<Tunnel>, stopped: seq<Tunnel>)
      requires Valid() && DistinctListens(proxies)
      ensures Apart(next) && Apart(started) && Apart(stopped)
      ensures |next| == |proxies| && Mirrors(fp, next, proxies)
      ensures Splits(tunnels, next, Kept(proxies), stopped, started)
      ensures fresh(started) && forall t :: t in started ==> !t.stopped
    {
      var running := Running();
      next, started := Plan(running, proxies);
      stopped := LeftOut(next);
      forall t | t in tunnels && Unchanged(t, proxies) ensures t in next {
        var i :| 0 <= i < |proxies| && fp(proxies[i]) == fp(t.proxy);
        assert next[i] == t;
      }
    }

    /** The list is the new one and the old tunnels are stopped, but those in `started` are not started yet. */
    ghost predicate Half(started: seq<Tunnel>)
      reads this, ports, tunnels
    {
      && TellsListen(fp) && Apart(tunnels) && !closed
      && (forall t :: t in tunnels ==> !t.stopped)
      && (forall t :: t in tunnels && t !in started ==>
        t.listening && !t.listenFail && t.proxy.listen in ports.bound && ports.bound[t.proxy.listen] == t)
      && (forall l :: l in ports.bound ==>
            ports.bound[l] in tunnels && ports.bound[l] !in started && ports.bound[l].listening
                && ports.bound[l].proxy.listen == l)
    }

    method StopOld(next: seq<Tunnel>, ghost kept: set<Tunnel>, ghost started: seq<Tunnel>, stopped: seq<Tunnel>)
      requires Valid() && !closed && Apart(next) && Apart(stopped)
      requires Splits(tunnels, next, kept, stopped, started)
      requires forall t :: t in next ==> if t in tunnels then t.listening else !t.stopped
      modifies this`tunnels, ports, stopped
      ensures Half(started) && tunnels == next && ports.outside == old(ports.outside)
      ensures forall t :: t in stopped ==> t.stopped && !t.listening
      ensures ports.log == old(ports.log) + Stops(stopped)
    {
      tunnels := next;
      ports.StopAll(stopped);
    }

    method StartNew(started: seq<Tunnel>)
      requires Half(started) && Apart(started) && forall t :: t in started ==> t in tunnels
      modifies ports, started
      ensures Valid() && tunnels == old(tunnels) && ports.outside == old(ports.outside)
      ensures forall t :: t in tunnels && t !in started ==> t.listening
      ensures forall t :: t in started ==> t.listening == (t.proxy.listen !in ports.outside)
      ensures ports.log == old(ports.log) + Starts(started)
    {
      HoldsOwn(started, ports.outside);
      ports.StartAll(started);
    }

    /** The first half of Apply: the list is replaced and what it leaves out is stopped. */
    method Retire(proxies: seq<Proxy>) returns (stopped: seq<Tunnel>, started: seq<Tunnel>)
      requires Valid() && !closed && DistinctListens(proxies)
      modifies this`tunnels, ports, tunnels
      ensures Half(started) && Apart(started) && ports.outside == old(ports.outside)
      ensures |tunnels| == |proxies| && Mirrors(fp, tunnels, proxies)
      ensures Splits(old(tunnels), tunnels, old(Kept(proxies)), stopped, started)
      ensures forall t :: t in stopped ==> t.stopped && !t.listening
      ensures fresh(started)
      ensures ports.log == old(ports.log) + Stops(stopped)
    {
      var next;
      next, started, stopped := Sort(proxies);
      assert forall t: Tunnel :: t in stopped ==> t in tunnels;
      assert forall k :: 0 <= k < |stopped| ==> stopped[k] in tunnels;
      assert forall t :: t in next && t in tunnels ==> t in Kept(proxies);
      StopOld(next, Kept(proxies), started, stopped);
    }

    /**
     * The part of Reload below the check of the configuration: the list mirrors it in order. Unchanged tunnels that
     * hold their port stay, the very same objects and never stopped; all others are stopped; and only then new ones
     * start, so that none of them finds its address taken by this process.
     */
    method Apply(proxies: seq<Proxy>) returns (stopped: seq<Tunnel>, started: seq<Tunnel>)
      requires Valid() && !closed && DistinctListens(proxies)
      modifies this`tunnels, ports, tunnels
      ensures Valid() && ports.outside == old(ports.outside)
      ensures |tunnels| == |proxies| && Mirrors(fp, tunnels, proxies)
      ensures Splits(old(tunnels), tunnels, old(Kept(proxies)), stopped, started)
      ensures forall t :: t in old(Kept(proxies)) ==> t.listening && !t.stopped
      ensures forall t :: t in stopped ==> t.stopped && !t.listening
      ensures fresh(started) && forall t :: t in started ==> t.listening == (t.proxy.listen !in ports.outside)
      ensures ports.log == old(ports.log) + Stops(stopped) + Starts(started)
    {
      stopped, started := Retire(proxies);
      SplitsApart(old(tunnels), tunnels, old(Kept(proxies)), stopped, started);
      StartNew(started);
    }

    /** Reload. A configuration that cannot be read changes nothing in the list, and neither does a closed app. */
    method Reload(cfg: Result<Config, ConfigError>)
      requires Valid() && (cfg.Ok? ==> DistinctListens(cfg.value.proxies))
      modifies this, ports, tunnels
      ensures Valid() && closed == old(closed)
      ensures cfgErr == if closed then old(cfgErr) else if cfg.Err? then Some(cfg.error) else None
      ensures closed || cfg.Err? ==>
        tunnels == old(tunnels) && ports.log == old(ports.log) && ports.bound == old(ports.bound)
      ensures !closed && cfg.Ok? ==> |tunnels| == |cfg.value.proxies| && Mirrors(fp, tunnels, cfg.value.proxies)
      ensures !closed && cfg.Ok? ==>
        forall t :: t in old(tunnels) ==> (t in tunnels <==> t in old(Kept(cfg.value.proxies)))
      ensures forall t :: t in old(tunnels) && t !in tunnels ==> t.stopped && !t.listening
      ensures forall t :: t in old(tunnels) && t in tunnels ==> t.listening == old(t.listening) && !t.stopped
      ensures forall t :: t in tunnels && t !in old(tunnels) ==>
        fresh(t) && t.listening == (t.proxy.listen !in ports.outside)
    {
      if closed { return; }
      if cfg.Err? {
        cfgErr := Some(cfg.error);
        return;
      }
      cfgErr := None;
      var stopped, started := Apply(cfg.value.proxies);
    }

    /** Reload from the text of the file: any text at all, read and checked by ParseConfig. */
    method Load(isIP: IsIP, resolve: string -> string, text: string)
      requires Valid() && ConfigWellFormed.IPSyntax(isIP)
      modifies this, ports, tunnels
      ensures Valid() && closed == old(closed)
      ensures var cfg := LoadConfig(isIP, resolve, text);
        if closed || cfg.Err? then tunnels == old(tunnels) && ports.log == old(ports.log)
        else |tunnels| == |cfg.value.proxies| && Mirrors(fp, tunnels, cfg.value.proxies)
    {
      var cfg := LoadConfig(isIP, resolve, text);
      LoadedListensAreDistinct(isIP, resolve, text);
      Reload(cfg);
    }

    /** Shutdown: everything is stopped, every port is free, and nothing starts again. */
    method Shutdown()
      requires Valid()
      modifies this, ports, tunnels
      ensures Valid() && closed && tunnels == [] && ports.bound == map[]
      ensures forall t :: t in old(tunnels) ==> t.stopped && !t.listening
      ensures ports.log == old(ports.log) + Stops(old(tunnels))
    {
      if closed {
        assert ports.bound == map[];
        return;
      }
      closed := true;
      var ts := tunnels;
      tunnels := [];
      ports.StopAll(ts);
      assert ports.bound == map[];
    }

    /** slices.Index */
    method IndexOf(t: Tunnel) returns (i: int)
      ensures -1 <= i < |tunnels|
      ensures if t in tunnels then i >= 0 && tunnels[i] == t else i == -1
    {
      for k := 0 to |tunnels|
        invariant t !in tunnels[..k]
      {
        if tunnels[k] == t { return k; }
      }
      i := -1;
    }

    /** nt takes the place of the tunnel at i, which could not listen. */
    method Retry(i: nat, nt: Tunnel)
      requires Valid() && i < |tunnels| && tunnels[i].listenFail
      requires nt !in tunnels && nt.proxy == tunnels[i].proxy && !nt.stopped
      modifies this`tunnels, ports, tunnels[i], nt
      ensures Valid() && tunnels == old(tunnels)[i := nt] && old(tunnels)[i].stopped
              && ports.outside == old(ports.outside)
      ensures nt.listening == (nt.proxy.listen !in ports.outside)
      ensures ports.log == old(ports.log) + [StopOf(old(tunnels)[i]), StartOf(nt)]
    {
      var t := tunnels[i];
      assert t in tunnels && !t.listening;
      assert t.proxy.listen !in ports.bound;
      ghost var was := tunnels;
      tunnels := tunnels[i := nt];
      forall u | u in was && u != t ensures u in tunnels {
        var k :| 0 <= k < |was| && was[k] == u;
        assert tunnels[k] == u;
      }
      assert tunnels[i] == nt;
      ports.Stop(t);
      ports.Start(nt);
    }

    /**
     * Reconnect of a tunnel that could not listen: a new one takes its place in the list and tries again. A tunnel that
     * listens, or is no longer in the list, leaves the list as it is.
     */
    method Reconnect(t: Tunnel)
      requires Valid()
      modifies this`tunnels, ports, t
      ensures Valid() && |tunnels| == |old(tunnels)| && ports.outside == old(ports.outside)
      ensures forall i :: 0 <= i < |tunnels| ==> tunnels[i].proxy == old(tunnels)[i].proxy
      ensures forall i :: 0 <= i < |tunnels| ==> if old(tunnels)[i] == t && old(t.listenFail)
        then fresh(tunnels[i]) && tunnels[i].listening == (t.proxy.listen !in ports.outside)
        else tunnels[i] == old(tunnels)[i]
      ensures t in old(tunnels) && old(t.listenFail) ==> t.stopped
      ensures !(t in old(tunnels) && old(t.listenFail)) ==> ports.log == old(ports.log) && t.stopped == old(t.stopped)
    {
      if !t.listenFail { return; }
      var nt := new Tunnel(t.proxy);
      var i := IndexOf(t);
      if i < 0 || closed { return; }
      Retry(i, nt);
    }
  }
}
