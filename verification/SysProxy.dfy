/**
 * Saving and restoring the system proxy settings.  Every registry write and
 * every change of the live settings is a separate operation; the machine may
 * crash before any of them, and each one that can fail may fail.  The number of
 * operations left before the crash is a field, so what a method promises it
 * promises for a crash at every point.
 */
module SysProxy {
  import opened Basics
  import opened Text

  const DIRECT: bv32 := 1
  const PROXY: bv32 := 2

  const BYPASS := "localhost;127.*;10.*;172.16.*;172.17.*;172.18.*;172.19.*;172.20.*;172.21.*;172.22.*;" +
                  "172.23.*;172.24.*;172.25.*;172.26.*;172.27.*;172.28.*;172.29.*;172.30.*;172.31.*;192.168.*;<local>"

  datatype Settings = Settings(flags: bv32, server: string, bypass: string, autoURL: string)

  /** What enableSystemProxy installs. */
  function Ours(addr: string): Settings {
    Settings(DIRECT | PROXY, addr, BYPASS, "")
  }

  /** What disableSystemProxy makes of settings it has no record for. */
  function SwitchedOff(s: Settings): Settings {
    s.(flags := (s.flags & !PROXY) | DIRECT)
  }

  predicate PointsTo(s: Settings, addr: string) {
    s.flags & PROXY != 0 && EqualFold(s.server, addr)
  }

  /** The four saved values; a missing one reads as "". */
  datatype Saved = Saved(flags: Option<bv32>, server: Option<string>, bypass: Option<string>, autoURL: Option<string>)

  function OrEmpty(v: Option<string>): string {
    if v.Some? then v.value else ""
  }

  /** loadSavedProxy: the flags decide whether there is a record. */
  function Load(r: Saved): Option<Settings> {
    if r.flags.None? then None
    else Some(Settings(r.flags.value, OrEmpty(r.server), OrEmpty(r.bypass), OrEmpty(r.autoURL)))
  }

  datatype Name = Server | Bypass | AutoURL

  function Write(r: Saved, n: Name, s: Settings): Saved {
    match n
    case Server => r.(server := Some(s.server))
    case Bypass => r.(bypass := Some(s.bypass))
    case AutoURL => r.(autoURL := Some(s.autoURL))
  }

  predicate Written(r: Saved, n: Name, s: Settings) {
    match n
    case Server => r.server == Some(s.server)
    case Bypass => r.bypass == Some(s.bypass)
    case AutoURL => r.autoURL == Some(s.autoURL)
  }

  lemma WriteKeeps(r: Saved, n: Name, s: Settings)
    ensures Written(Write(r, n, s), n, s)
    ensures forall k :: Written(r, k, s) ==> Written(Write(r, n, s), k, s)
  {
  }

  datatype Outcome = Done | Failed | Crashed

  /** Release is given the address that is installed. */
  datatype Command = Enable(addr: string) | Disable | Release

  lemma InstalledPointsToItself(s: Settings)
    ensures forall addr :: s == Ours(addr) ==> PointsTo(s, s.server)
  {
    assert (DIRECT | PROXY) & PROXY == PROXY;
  }

  lemma SwitchedOffTwice(s: Settings)
    ensures SwitchedOff(SwitchedOff(s)) == SwitchedOff(s)
  {
    assert (((s.flags & !PROXY) | DIRECT) & !PROXY) | DIRECT == (s.flags & !PROXY) | DIRECT;
  }

  predicate OnlyEnables(cmds: seq<Command>) {
    forall c :: c in cmds ==> c.Enable?
  }

  ghost predicate NoFaults(faults: nat -> bool) {
    forall n :: !faults(n)
  }

  class Machine {
    var live: Settings               // the settings programs use
    var reg: Saved                   // the program's registry key
    var left: nat                    // operations before the next crash
    var faults: nat -> bool          // whether the operation with that many left fails
    ghost var base: Settings         // the user's own settings

    /**
     * A record, if there is one, holds the user's settings; and while the live settings are not
     * the user's, they are ours and there is a record.
     */
    ghost predicate Valid()
      reads this
    {
      && (reg.flags.Some? ==> Load(reg) == Some(base))
      && (live == base || (reg.flags.Some? && exists addr :: live == Ours(addr)))
    }

    /** Nothing saved, nothing of ours installed. */
    constructor (live: Settings, stray: Saved)
      requires stray.flags.None?
      ensures Valid() && this.live == live && base == live && this.reg == stray && NoFaults(faults)
    {
      this.live, reg, left, faults, base := live, stray, 0, n => false, live;
    }

    /** One operation that may fail. */
    method Operation() returns (o: Outcome)
      modifies this`left
      ensures o == (if old(left) == 0 then Crashed else if faults(old(left) - 1) then Failed else Done)
      ensures left == if old(left) == 0 then 0 else old(left) - 1
    {
      if left == 0 {
        return Crashed;
      }
      left := left - 1;
      return if faults(left) then Failed else Done;
    }

    /** saveProxy: the three strings in some order, the flags last. */
    method Save(s: Settings) returns (o: Outcome)
      requires reg.flags.None?
      modifies this`left, this`reg
      ensures o == Done ==> Load(reg) == Some(s)
      ensures o != Done ==> reg.flags.None?
      ensures old(left) >= 4 && NoFaults(faults) ==> o == Done && left == old(left) - 4
    {
      var unwritten := {Server, Bypass, AutoURL};
      while unwritten != {}
        invariant NoFaults(faults) ==> left == old(left) - 3 + |unwritten| || old(left) < 4
        invariant reg.flags.None?
        invariant forall n :: n !in unwritten ==> Written(reg, n, s)
        decreases unwritten
      {
        var n :| n in unwritten;
        o := Operation();
        if o != Done { return; }
        WriteKeeps(reg, n, s);
        reg := Write(reg, n, s);
        unwritten := unwritten - {n};
      }
      assert Written(reg, Server, s) && Written(reg, Bypass, s) && Written(reg, AutoURL, s);
      o := Operation();
      if o != Done { return; }
      reg := reg.(flags := Some(s.flags));
    }

    /** clearSavedProxy, flags first; deletions do not fail. */
    method Clear() returns (o: Outcome)
      modifies this`left, this`reg
      ensures o == Done ==> reg == Saved(None, None, None, None)
      ensures o == Crashed ==> reg == old(reg) || reg.flags.None?
      ensures o == Crashed ==> old(left) < 4
      ensures o != Failed
    {
      if left == 0 { return Crashed; }
      left, reg := left - 1, reg.(flags := None);
      if left == 0 { return Crashed; }
      left, reg := left - 1, reg.(server := None);
      if left == 0 { return Crashed; }
      left, reg := left - 1, reg.(bypass := None);
      if left == 0 { return Crashed; }
      left, reg := left - 1, reg.(autoURL := None);
      return Done;
    }

    method EnableSystemProxy(addr: string) returns (o: Outcome)
      requires Valid()
      modifies this`left, this`reg, this`live
      ensures Valid()
      ensures o == Done ==> live == Ours(addr) && Load(reg) == Some(base)
      ensures o != Done ==> live == old(live)
      ensures old(reg).flags.Some? ==> reg == old(reg)
      ensures old(left) >= 6 && NoFaults(faults) ==> o == Done
    {
      if Load(reg).None? {
        o := Operation();            // queryProxySettings
        if o != Done { return; }
        o := Save(live);
        if o != Done { return; }
      }
      o := Operation();              // applyProxySettings
      if o != Done { return; }
      live := Ours(addr);
    }

    method DisableSystemProxy() returns (o: Outcome)
      requires Valid()
      modifies this`left, this`reg, this`live, this`base
      ensures Valid()
      ensures base == if old(reg).flags.None? && live != old(live) then SwitchedOff(old(base)) else old(base)
      ensures o == Done ==> reg == Saved(None, None, None, None)
      ensures o == Done ==> live == if old(reg).flags.Some? then old(base) else SwitchedOff(old(base))
      ensures old(left) >= 6 && NoFaults(faults) ==> o == Done
    {
      var orig := live;
      if Load(reg).Some? {
        orig := Load(reg).value;
      } else {
        o := Operation();            // queryProxySettings
        if o != Done { return; }
        orig := SwitchedOff(live);
      }
      o := Operation();              // applyProxySettings
      if o != Done { return; }
      if Load(reg).None? {
        base := orig;
      }
      live := orig;
      o := Clear();
    }

    /**
     * releaseSystemProxy.  When the query succeeds, the guarantee survives exactly if the live settings
     * are the user's or point to the address it is given; otherwise the record is dropped while ours are live.
     */
    method ReleaseSystemProxy(addr: string) returns (o: Outcome, ghost queried: bool)
      requires Valid()
      modifies this`left, this`reg, this`live, this`base
      ensures base == if old(reg).flags.None? && live != old(live) then SwitchedOff(old(base)) else old(base)
      ensures old(live) == old(base) || PointsTo(old(live), addr) || !queried ==> Valid()
      ensures o == Done && queried ==> (Valid() <==> old(live) == old(base) || PointsTo(old(live), addr))
      ensures o == Done && queried && !PointsTo(old(live), addr) ==> live == old(live)
      ensures o == Done && queried && !PointsTo(old(live), addr) ==> reg == Saved(None, None, None, None)
      ensures o == Done && old(reg).flags.Some? && (!queried || PointsTo(old(live), addr)) ==> live == old(base)
      ensures old(left) >= 7 && NoFaults(faults) ==> o == Done && queried
    {
      queried := false;
      o := Operation();              // queryProxySettings
      if o == Crashed { return; }
      if o == Done {
        queried := true;
        if !PointsTo(live, addr) {
          o := Clear();
          return;
        }
      }
      o := DisableSystemProxy();
    }

    /**
     * Any number of enables, disables and releases, each cut short anywhere by a crash or a failure, and then a
     * disable that runs to its end. The live settings are then the user's own from before all of it, exactly, unless
     * some disable or release changed them while there was no record; then they are the user's own, switched off.
     */
    method Sessions(cmds: seq<Command>, crash: nat -> nat, fault: nat -> nat -> bool, enough: nat)
      returns (recorded: bool, switched: bool)
      requires Valid() && enough >= 6
      modifies this
      ensures Valid() && reg == Saved(None, None, None, None)
      ensures live == base == if switched then SwitchedOff(old(base)) else old(base)
      ensures OnlyEnables(cmds) ==> live == if recorded then old(base) else SwitchedOff(old(base))
      ensures OnlyEnables(cmds) && old(reg).flags.Some? ==> recorded
      ensures OnlyEnables(cmds) && (exists n: nat :: n < |cmds| && crash(n) >= 6 && NoFaults(fault(n))) ==> recorded
    {
      switched := false;
      for n := 0 to |cmds|
        invariant Valid() && base == if switched then SwitchedOff(old(base)) else old(base)
        invariant OnlyEnables(cmds) ==> !switched && (old(reg).flags.Some? ==> reg.flags.Some?)
        invariant OnlyEnables(cmds) && (exists k: nat :: k < n && crash(k) >= 6 && NoFaults(fault(k))) ==>
          reg.flags.Some?
      {
        SwitchedOffTwice(old(base));
        var none, before := reg.flags.None?, live;
        left, faults := crash(n), fault(n);
        Run(cmds[n]);
        switched := switched || (!cmds[n].Enable? && none && live != before);
      }
      SwitchedOffTwice(old(base));
      left, faults := enough, n => false;
      recorded := reg.flags.Some?;
      var before := live;
      var o := DisableSystemProxy();
      assert o == Done;
      switched := switched || (!recorded && live != before);
    }

    method Run(c: Command)
      requires Valid()
      modifies this`left, this`reg, this`live, this`base
      ensures Valid()
      ensures base
              == if !c.Enable? && old(reg).flags.None? && live != old(live) then SwitchedOff(old(base)) else old(base)
      ensures c.Enable? && old(reg).flags.Some? ==> reg == old(reg)
      ensures c.Enable? && old(left) >= 6 && NoFaults(faults) ==> reg.flags.Some?
    {
      var o;
      match c
      case Enable(addr) => o := EnableSystemProxy(addr);
      case Disable => o := DisableSystemProxy();
      case Release =>
        InstalledPointsToItself(live);
        ghost var q;
        o, q := ReleaseSystemProxy(live.server);
    }
  }

  /**
   * Where the guarantee is lost: this program's settings were switched to a second port, and the release is given the
   * first one. It deletes the record and leaves this program's settings live, and nothing remembers the user's.
   */
  method StaleRelease(user: Settings) returns (m: Machine)
    requires user != Ours("127.0.0.1:1081")
    ensures m.base == user && m.live == Ours("127.0.0.1:1081") && m.reg == Saved(None, None, None, None) && !m.Valid()
  {
    m := new Machine(user, Saved(None, None, None, None));
    m.left := 6;
    var o := m.EnableSystemProxy("127.0.0.1:1081");
    m.left := 7;
    assert "127.0.0.1:1081"[13] != "127.0.0.1:1080"[13];
    assert !PointsTo(m.live, "127.0.0.1:1080");
    ghost var q;
    o, q := m.ReleaseSystemProxy("127.0.0.1:1080");
  }
}
