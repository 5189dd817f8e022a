/** The gate server's objects: each handler takes the state through the step of module Gate. Handlers
    that touch no session and keep or shrink the map of online players say nothing about Valid: it
    follows from what they do ensure. */
module GateServer {
  import opened Collections
  import opened Gate

  class UserSession {
    var phase: Phase
    var tran: Id
    var gs: Id

    constructor ()
      ensures Abs() == NOBODY
    {
      phase, tran, gs := Disabled, 0, 0;
    }

    ghost function Abs(): Info
      reads this
    {
      Info(phase, tran, gs)
    }

    method SetState(p: Phase)
      modifies this
      ensures Abs() == if p == Disabled then NOBODY else old(Abs()).(phase := p)
    {
      phase := p;
      if p == Disabled {
        tran, gs := 0, 0;
      }
    }
  }

  /** The sessions found under the ids other than `keys` have been dealt with. */
  ghost predicate Closing(st: State<UserSession>, g: Id, now: map<UserSession, Info>, keys: set<Id>) {
    && now.Keys == st.sess.Keys
    && (forall s :: s in now ==> now[s] == st.sess[s] || now[s] == ClosedBy(st, g)[s])
    && (forall k :: k in st.online && k !in keys && st.online[k] in now ==> now[st.online[k]] == ClosedBy(st, g)[st.online[k]])
  }

  lemma ClosingStarts(st: State<UserSession>, g: Id)
    ensures Closing(st, g, st.sess, st.online.Keys)
  {
  }

  lemma ClosingStep(st: State<UserSession>, g: Id, now: map<UserSession, Info>, keys: set<Id>, k: Id)
    requires Tracked(st) && Closing(st, g, now, keys) && k in st.online
    ensures var p := st.online[k];
      Closing(st, g, if now[p].gs == g then now[p := now[p].(phase := WaitClose)] else now, keys - {k})
  {
    assert st.online[k] in st.online.Values;
  }

  lemma ClosingEnds(st: State<UserSession>, g: Id, now: map<UserSession, Info>)
    requires Tracked(st) && Closing(st, g, now, {})
    ensures now == ClosedBy(st, g)
  {
    forall s | s in now
      ensures now[s] == ClosedBy(st, g)[s]
    {
      if s in st.online.Values {
        var k :| k in st.online && st.online[k] == s;
      }
    }
  }

  class UserManager {
    var online: map<Id, UserSession>
    var wait: map<Id, Account>
    var chan: map<Id, int>
    var recon: map<Id, Id>
    /** Pending one-shot events, one per `addEvent`. */
    var waitTimers: multiset<Id>
    var reconTimers: multiset<Id>
    /** The active game servers. */
    var live: set<Id>
    ghost var reg: set<(Id, Id)>
    ghost var used: set<Id>
    /** Every session accepted so far, with what it knows. */
    ghost var infos: map<UserSession, Info>

    ghost function Abs(): State<UserSession>
      reads this
    {
      State(online, wait, chan, recon, waitTimers, reconTimers, infos, live, reg, used)
    }

    ghost predicate Valid()
      reads this, infos.Keys
    {
      && (forall t :: t in online ==> online[t] in infos)
      && (forall s :: s in infos ==> infos[s] == s.Abs())
    }

    constructor ()
      ensures Valid() && Abs() == Start()
    {
      online, wait, chan, recon := map[], map[], map[], map[];
      waitTimers, reconTimers, live := multiset{}, multiset{}, {};
      reg, used, infos := {}, {}, map[];
    }

    ghost method RemovePlayer(g: Id, t: Id)
      requires g in live
      modifies this`reg
      ensures reg == old(reg) - {(g, t)}
    {
      reg := reg - {(g, t)};
    }

    method KickUser(t: Id)
      requires Valid()
      modifies this`online, this`wait, this`chan, this`recon, this`reg
      ensures Abs() == Kick(old(Abs()), t)
    {
      if t in online {
        var p := online[t];
        if p.gs in live {
          RemovePlayer(p.gs, t);
        }
        online := online - {t};
        return;
      }
      wait := wait - {t};
      chan := chan - {t};
      if t in recon {
        var gs := recon[t];
        recon := recon - {t};
        if gs in live {
          RemovePlayer(gs, t);
        }
      } else {
        assert recon - {t} == recon;
      }
    }

    method AddToWait(t: Id, a: Account, c: int)
      requires Valid()
      modifies this`online, this`wait, this`chan, this`recon, this`reg, this`waitTimers, this`used
      ensures Abs() == Gate.AddToWait(old(Abs()), t, a, c)
    {
      hide Kick, Add;
      if t in online {
        KickUser(t);
      }
      wait, chan := Add(wait, t, a), Add(chan, t, c);
      waitTimers := waitTimers + multiset{t};
      used := used + {t};
    }

    method EventCallRemoveWait(t: Id)
      requires Valid() && t in waitTimers
      modifies this`wait, this`chan, this`waitTimers
      ensures Abs() == WaitExpire(old(Abs()), t)
    {
      waitTimers := waitTimers - multiset{t};
      wait := wait - {t};
      chan := chan - {t};
    }

    method EventCallRemoveReconn(t: Id)
      requires Valid() && t in reconTimers
      modifies this`recon, this`reg, this`reconTimers
      ensures Abs() == ReconExpire(old(Abs()), t)
    {
      reconTimers := reconTimers - multiset{t};
      var gs := 0;
      if t in recon {
        gs := recon[t];
        if gs in live {
          RemovePlayer(gs, t);
        }
      }
      recon := recon - {t};
    }

    method Seat(t: Id, p: UserSession, g: Id)
      modifies this`online, p
      ensures p.Abs() == Info(Connected, old(p.tran), g) && online == Add(old(online), t, p)
    {
      p.gs := g;
      p.SetState(Connected);
      online := Add(online, t, p);
    }

    /** `checkConn`; the caller stores the id when it gets true. */
    method CheckConn(t: Id, p: UserSession, idle: Option<Id>) returns (ok: bool)
      requires Valid() && p in infos && p.phase != Connected
      modifies this`online, this`wait, this`chan, this`recon, this`reg, p
      ensures ok == (if t in old(wait) then idle != None else t in old(recon))
      ensures Abs().(sess := infos[p := if ok then p.Abs().(tran := t) else p.Abs()]) == Login(old(Abs()), p, t, idle)
    {
      if t in wait {
        wait := wait - {t};
        chan := chan - {t};
        if idle == None {
          p.SetState(WaitClose);
          return false;
        }
        Seat(t, p, idle.value);
        reg := reg + {(idle.value, t)};
        return true;
      }
      if t in recon {
        var gs := recon[t];
        recon := recon - {t};
        Seat(t, p, gs);
        return true;
      }
      p.SetState(WaitClose);
      return false;
    }

    method ParseLoginGame(p: UserSession, t: Id, idle: Option<Id>)
      requires Valid() && p in infos
      modifies this`online, this`wait, this`chan, this`recon, this`reg, this`infos, p
      ensures Valid() && Abs() == Login(old(Abs()), p, t, idle)
    {
      if p.phase == Connected {
        return;
      }
      var ok := CheckConn(t, p, idle);
      if ok {
        p.tran := t;
      }
      infos := infos[p := p.Abs()];
    }

    method CheckClose(p: UserSession)
      requires Valid() && p in infos
      modifies this`online, this`recon, this`reg, this`reconTimers
      ensures Abs().(sess := infos[p := NOBODY]) == Close(old(Abs()), p)
    {
      online := online - {p.tran};
      if p.gs in live && p.phase == Connected {
        recon := Add(recon, p.tran, p.gs);
      } else {
        if p.gs in live {
          RemovePlayer(p.gs, p.tran);
        }
      }
      reconTimers := reconTimers + multiset{p.tran};
    }

    method OnClose(p: UserSession)
      requires Valid() && p in infos
      modifies this`online, this`recon, this`reg, this`reconTimers, this`infos, p
      ensures Valid() && Abs() == Close(old(Abs()), p)
    {
      CheckClose(p);
      p.SetState(Disabled);
      infos := infos[p := p.Abs()];
    }

    method OnAccept(p: UserSession)
      requires Valid() && p.Abs() == NOBODY
      modifies this`infos, p
      ensures Valid()
      ensures Abs() == old(Abs()).(sess := old(Abs()).sess[p := NOBODY.(phase := WaitAccount)])
    {
      p.SetState(WaitAccount);
      infos := infos[p := p.Abs()];
    }

    /** `eraseValue` on the reconnect map, entry by entry. */
    method EraseValue(gs: Id)
      modifies this`recon
      ensures recon == WithoutValue(old(recon), gs)
    {
      var keys := recon.Keys;
      while keys != {}
        invariant keys <= recon.Keys
        invariant forall k :: k in recon ==> k in old(recon) && recon[k] == old(recon)[k]
        invariant forall k :: k in old(recon) && (k in keys || old(recon)[k] != gs) ==> k in recon
        invariant forall k :: k in recon && k !in keys ==> recon[k] != gs
        decreases keys
      {
        var k :| k in keys;
        keys := keys - {k};
        if recon[k] == gs {
          recon := recon - {k};
        }
      }
    }

    /** The loop of `removeUsers`, over a copy of the map of online players. */
    method CloseUsers(gs: Id)
      requires Valid()
      modifies this`infos, infos.Keys
      ensures Valid() && infos == ClosedBy(old(Abs()), gs)
    {
      hide ClosedBy, Closing;
      var keys := online.Keys;
      assert Closing(Abs(), gs, infos, keys) by { ClosingStarts(Abs(), gs); }
      while keys != {}
        invariant keys <= online.Keys && infos.Keys == old(infos.Keys)
        invariant Valid() && Closing(old(Abs()), gs, infos, keys)
        decreases keys
      {
        var k :| k in keys;
        ClosingStep(old(Abs()), gs, infos, keys, k);
        keys := keys - {k};
        var p := online[k];
        if p.gs == gs {
          p.SetState(WaitClose);
          infos := infos[p := p.Abs()];
        }
      }
      ClosingEnds(old(Abs()), gs, infos);
    }

    method RemoveUsers(gs: Id)
      requires Valid()
      modifies this`recon, this`infos, infos.Keys
      ensures Valid()
      ensures infos == ClosedBy(old(Abs()), gs) && recon == WithoutValue(old(recon), gs)
    {
      CloseUsers(gs);
      EraseValue(gs);
    }

    /** `removeActiveGameClient`. */
    method RemoveActiveGameClient(g: Id)
      requires Valid() && g in live
      modifies this`recon, this`live, this`reg, this`infos, infos.Keys
      ensures Valid() && Abs() == GameDown(old(Abs()), g)
    {
      hide ClosedBy, WithoutValue;
      RemoveUsers(g);
      live := live - {g};
      reg := set r | r in reg && r.0 != g;
    }

    method ParseChangeGs(sender: Id, t: Id, g: Id, known: bool)
      requires Valid() && sender in live
      modifies this`reg, this`infos, infos.Keys
      ensures Valid() && Abs() == ChangeGs(old(Abs()), sender, t, g, known)
    {
      if t in online && g in live {
        var p := online[t];
        RemovePlayer(sender, p.tran);
        if known {
          p.gs := g;
          infos := infos[p := p.Abs()];
          reg := reg + {(g, p.tran)};
        }
      }
    }
  }
}
