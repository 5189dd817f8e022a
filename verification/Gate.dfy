/** The hand-off of players on the gate server (gateserver/user_manager.cpp, user_session.cpp,
    game_client.cpp, game_manager.cpp): a transaction id is expected (wait), online, or waiting for its
    player to reconnect (recon), and meanwhile registered with one of the game servers. */
module Gate {
  import opened Collections

  /** Transaction ids and game server ids; 0 is the invalid one. */
  type Id = nat
  type Account = nat

  datatype Phase = Disabled | WaitAccount | Connected | WaitClose

  /** What a session knows about its player. */
  datatype Info = Info(phase: Phase, tran: Id, gs: Id)

  const NOBODY := Info(Disabled, 0, 0)

  datatype State<!S(==)> = State(
    online: map<Id, S>,
    wait: map<Id, Account>,
    chan: map<Id, int>,
    recon: map<Id, Id>,
    waitTimers: multiset<Id>,
    reconTimers: multiset<Id>,
    sess: map<S, Info>,
    live: set<Id>,                 // active game servers
    reg: set<(Id, Id)>,            // (server, id): given to addNewPlayer and not yet to removePlayer
    used: set<Id>)                 // ids announced so far

  // -------------------------------------------------------------------------------------------
  // The steps
  // -------------------------------------------------------------------------------------------

  /** `addData`: an entry that is there stays as it is. */
  function Add<K(==), V>(m: map<K, V>, k: K, v: V): map<K, V> {
    if k in m then m else m[k := v]
  }

  /** `eraseValue`. */
  function WithoutValue(m: map<Id, Id>, v: Id): map<Id, Id> {
    map k | k in m && m[k] != v :: m[k]
  }

  /** Every online id belongs to a session that exists. */
  ghost predicate Tracked<S>(st: State<S>) {
    forall t :: t in st.online ==> st.online[t] in st.sess
  }

  /** `removePlayer` on server `g`, if there is one. */
  function Removed<S>(st: State<S>, g: Id, t: Id): set<(Id, Id)> {
    if g in st.live then st.reg - {(g, t)} else st.reg
  }

  function Kick<S>(st: State<S>, t: Id): State<S>
    requires Tracked(st)
  {
    if t in st.online then
      st.(reg := Removed(st, st.sess[st.online[t]].gs, t), online := st.online - {t})
    else
      st.(wait := st.wait - {t}, chan := st.chan - {t}, recon := st.recon - {t},
          reg := if t in st.recon then Removed(st, st.recon[t], t) else st.reg)
  }

  function AddToWait<S>(st: State<S>, t: Id, a: Account, c: int): State<S>
    requires Tracked(st)
  {
    var k := if t in st.online then Kick(st, t) else st;
    k.(wait := Add(k.wait, t, a), chan := Add(k.chan, t, c),
       waitTimers := k.waitTimers + multiset{t}, used := k.used + {t})
  }

  /** The session becomes the online session of player `t` on server `g`. */
  function Connect<S>(st: State<S>, s: S, t: Id, g: Id): State<S> {
    st.(sess := st.sess[s := Info(Connected, t, g)], online := Add(st.online, t, s))
  }

  function Refuse<S>(st: State<S>, s: S): State<S>
    requires s in st.sess
  {
    st.(sess := st.sess[s := st.sess[s].(phase := WaitClose)])
  }

  /** Id `t` no longer waits, neither for a first connection nor for its player to come back. */
  function TakeOut<S>(st: State<S>, t: Id): State<S> {
    if t in st.wait then st.(wait := st.wait - {t}, chan := st.chan - {t}) else st.(recon := st.recon - {t})
  }

  /** `parseLoginGame` and `checkConn`; `idle` is what `getIdleGameClient` answers. */
  function Login<S>(st: State<S>, s: S, t: Id, idle: Option<Id>): State<S>
    requires s in st.sess
  {
    if st.sess[s].phase == Connected then st
    else if t in st.wait then
      if idle == None then Refuse(TakeOut(st, t), s)
      else Connect(TakeOut(st, t), s, t, idle.value).(reg := st.reg + {(idle.value, t)})
    else if t in st.recon then Connect(TakeOut(st, t), s, t, st.recon[t])
    else Refuse(st, s)
  }

  /** `on_close` and `checkClose`. */
  function Close<S>(st: State<S>, s: S): State<S>
    requires s in st.sess
  {
    var i := st.sess[s];
    var c := st.(online := st.online - {i.tran}, reconTimers := st.reconTimers + multiset{i.tran},
                 sess := st.sess[s := NOBODY]);
    if i.gs in st.live && i.phase == Connected then c.(recon := Add(st.recon, i.tran, i.gs))
    else c.(reg := Removed(st, i.gs, i.tran))
  }

  function WaitExpire<S>(st: State<S>, t: Id): State<S> {
    st.(waitTimers := st.waitTimers - multiset{t}, wait := st.wait - {t}, chan := st.chan - {t})
  }

  function ReconExpire<S>(st: State<S>, t: Id): State<S> {
    st.(reconTimers := st.reconTimers - multiset{t}, recon := st.recon - {t},
        reg := if t in st.recon then Removed(st, st.recon[t], t) else st.reg)
  }

  /** The sessions of `removeUsers`: every online one on server `g` is told to close. */
  function ClosedBy<S>(st: State<S>, g: Id): map<S, Info> {
    map s | s in st.sess ::
      if st.sess[s].gs == g && s in st.online.Values then st.sess[s].(phase := WaitClose) else st.sess[s]
  }

  /** `removeActiveGameClient`: the connection to server `g` is lost, and with it what it knew. */
  function GameDown<S>(st: State<S>, g: Id): State<S> {
    st.(sess := ClosedBy(st, g), recon := WithoutValue(st.recon, g), live := st.live - {g},
        reg := set r | r in st.reg && r.0 != g)
  }

  /** `parseChangeGS`: server `sender` asks to move the player of `t` to server `g`; `known` is whether
      the account of the player is found. */
  function ChangeGs<S>(st: State<S>, sender: Id, t: Id, g: Id, known: bool): State<S>
    requires Tracked(st)
  {
    if t !in st.online || g !in st.live then st
    else
      var s := st.online[t];
      var i := st.sess[s];
      if known
      then st.(sess := st.sess[s := i.(gs := g)], reg := st.reg - {(sender, i.tran)} + {(g, i.tran)})
      else st.(reg := st.reg - {(sender, i.tran)})
  }

  datatype Step<S> =
    | StepAddToWait(t: Id, a: Account, c: int)
    | StepKick(t: Id)
    | StepAccept(s: S)
    | StepLogin(s: S, t: Id, idle: Option<Id>)
    | StepClose(s: S)
    | StepWaitExpire(t: Id)
    | StepReconExpire(t: Id)
    | StepGameUp(g: Id)
    | StepGameDown(g: Id)
    | StepChangeGs(sender: Id, t: Id, g: Id, known: bool)

  /** Ids are fresh, timers fire when pending, an idle server is a live one, and a game server asks to
      move only a player it has been given. */
  ghost predicate Enabled<S>(st: State<S>, e: Step<S>) {
    match e
    case StepAddToWait(t, a, c) => t != 0 && t !in st.used
    case StepKick(t) => true
    case StepAccept(s) => s in st.sess ==> st.sess[s].phase == Disabled
    case StepLogin(s, t, idle) => s in st.sess && st.sess[s].phase != Disabled && (idle.Some? ==> idle.value in st.live)
    case StepClose(s) => s in st.sess && st.sess[s].phase != Disabled
    case StepWaitExpire(t) => t in st.waitTimers
    case StepReconExpire(t) => t in st.reconTimers
    case StepGameUp(g) => g != 0 && g !in st.live
    case StepGameDown(g) => g in st.live
    case StepChangeGs(sender, t, g, known) => (sender, t) in st.reg
  }

  ghost function Next<S>(st: State<S>, e: Step<S>): State<S>
    requires Tracked(st) && Enabled(st, e)
  {
    match e
    case StepAddToWait(t, a, c) => AddToWait(st, t, a, c)
    case StepKick(t) => Kick(st, t)
    case StepAccept(s) => st.(sess := st.sess[s := NOBODY.(phase := WaitAccount)])
    case StepLogin(s, t, idle) => Login(st, s, t, idle)
    case StepClose(s) => Close(st, s)
    case StepWaitExpire(t) => WaitExpire(st, t)
    case StepReconExpire(t) => ReconExpire(st, t)
    case StepGameUp(g) => st.(live := st.live + {g})
    case StepGameDown(g) => GameDown(st, g)
    case StepChangeGs(sender, t, g, known) => ChangeGs(st, sender, t, g, known)
  }

  function Start<S>(): State<S> {
    State(map[], map[], map[], map[], multiset{}, multiset{}, map[], {}, {}, {})
  }

  // -------------------------------------------------------------------------------------------
  // What every step keeps
  // -------------------------------------------------------------------------------------------

  /** An id is in at most one of the maps, and the two maps about waiting ids go together. */
  ghost predicate Disjoint<S>(st: State<S>) {
    && st.online.Keys !! st.wait.Keys !! st.recon.Keys
    && st.wait.Keys == st.chan.Keys
  }

  /** A waiting id and an id whose player may reconnect have a timer that will end it. */
  ghost predicate Timed<S>(st: State<S>) {
    && (forall t :: t in st.wait ==> t in st.waitTimers)
    && (forall t :: t in st.recon ==> t in st.reconTimers)
  }

  predicate Nowhere<S>(st: State<S>, t: Id) {
    t !in st.online && t !in st.wait && t !in st.recon
  }

  ghost predicate Announced<S>(st: State<S>) {
    && 0 !in st.used && 0 !in st.live
    && st.online.Keys <= st.used && st.wait.Keys <= st.used && st.recon.Keys <= st.used
    && (forall s :: s in st.sess ==> st.sess[s].tran == 0 || st.sess[s].tran in st.used)
  }

  /** A session has an id once it is connected; the id leads back to that session, or it was kicked. */
  ghost predicate Owns<S>(st: State<S>, s: S)
    requires s in st.sess
  {
    var i := st.sess[s];
    && (i.phase == Connected ==> i.tran != 0)
    && (i.phase == Disabled ==> i.tran == 0)
    && (i.tran != 0 ==> (i.tran in st.online && st.online[i.tran] == s) || Nowhere(st, i.tran))
  }

  ghost predicate Sessions<S>(st: State<S>) {
    && (forall s :: s in st.sess ==> Owns(st, s))
    && (forall s, r :: s in st.sess && r in st.sess && s != r && st.sess[s].tran == st.sess[r].tran ==> st.sess[s].tran == 0)
  }

  /** Server `g` is live and will be told when the player of `t` is gone: its session is online, or its
      id is in the reconnect map, in both cases with `g` as the server to tell. */
  ghost predicate WillBeTold<S>(st: State<S>, g: Id, t: Id)
    requires Tracked(st)
  {
    && g in st.live
    && ((t in st.online && st.sess[st.online[t]] == Info(Connected, t, g)) || (t in st.recon && st.recon[t] == g))
  }

  ghost predicate NoOrphans<S>(st: State<S>)
    requires Tracked(st)
  {
    forall g, t :: (g, t) in st.reg ==> WillBeTold(st, g, t)
  }

  /** All of the above but the last. */
  ghost predicate Sound<S>(st: State<S>) {
    Tracked(st) && Disjoint(st) && Timed(st) && Announced(st) && Sessions(st)
  }

  ghost predicate Inv<S>(st: State<S>) {
    Sound(st) && NoOrphans(st)
  }

  lemma AddToWaitKeepsInv<S>(st: State<S>, t: Id, a: Account, c: int)
    requires Inv(st) && t != 0 && t !in st.used
    ensures Inv(AddToWait(st, t, a, c))
  {
  }

  lemma KickKeepsMaps<S>(st: State<S>, t: Id)
    requires Sound(st)
    ensures var n := Kick(st, t); Tracked(n) && Disjoint(n) && Timed(n) && Announced(n)
  {
    hide Sessions;
  }

  lemma KickKeepsSessions<S>(st: State<S>, t: Id)
    requires Sound(st)
    ensures Sessions(Kick(st, t))
  {
    hide Timed, Announced;
  }

  lemma KickKeepsInv<S>(st: State<S>, t: Id)
    requires Inv(st)
    ensures Inv(Kick(st, t))
  {
    hide Sessions, Timed;
    KickKeepsMaps(st, t);
    KickKeepsSessions(st, t);
  }

  lemma TakenOut<S>(st: State<S>, t: Id)
    requires Sound(st) && (t in st.wait || t in st.recon)
    ensures Sound(TakeOut(st, t)) && Nowhere(TakeOut(st, t), t) && t in st.used
    ensures forall s :: s in st.sess ==> st.sess[s].tran != t
  {
  }

  lemma ConnectKeepsMaps<S>(st: State<S>, s: S, t: Id, g: Id)
    requires Sound(st) && s in st.sess && Nowhere(st, t) && t in st.used
    ensures var n := Connect(st, s, t, g); Tracked(n) && Disjoint(n) && Timed(n) && Announced(n)
  {
    hide Sessions;
  }

  lemma ConnectKeepsSessions<S>(st: State<S>, s: S, t: Id, g: Id)
    requires Sound(st) && s in st.sess && Nowhere(st, t) && t in st.used
    requires forall r :: r in st.sess ==> st.sess[r].tran != t
    ensures Sessions(Connect(st, s, t, g))
  {
    hide Timed;
  }

  lemma RefuseKeepsSound<S>(st: State<S>, s: S)
    requires Sound(st) && s in st.sess && st.sess[s].phase != Connected
    ensures Sound(Refuse(st, s))
  {
  }

  lemma LoginKeepsSound<S>(st: State<S>, s: S, t: Id, idle: Option<Id>)
    requires Sound(st) && s in st.sess
    ensures Sound(Login(st, s, t, idle))
  {
    hide Connect, Refuse;
    if st.sess[s].phase != Connected {
      hide Disjoint, Timed, Announced, Sessions;
      if t in st.wait || t in st.recon {
        TakenOut(st, t);
        var g := if t in st.recon then st.recon[t] else if idle.Some? then idle.value else 0;
        ConnectKeepsMaps(TakeOut(st, t), s, t, g);
        ConnectKeepsSessions(TakeOut(st, t), s, t, g);
        RefuseKeepsSound(TakeOut(st, t), s);
      } else {
        RefuseKeepsSound(st, s);
      }
    }
  }

  lemma LoginKeepsNoOrphans<S>(st: State<S>, s: S, t: Id, idle: Option<Id>)
    requires s in st.sess && (idle.Some? ==> idle.value in st.live)
    requires Tracked(st) && Disjoint(st) && NoOrphans(st) && Tracked(Login(st, s, t, idle))
    ensures NoOrphans(Login(st, s, t, idle))
  {
    var n := Login(st, s, t, idle);
    forall g, u | (g, u) in n.reg
      ensures WillBeTold(n, g, u)
    {
      assert (g, u) in st.reg ==> WillBeTold(st, g, u);
    }
  }

  lemma LoginKeepsInv<S>(st: State<S>, s: S, t: Id, idle: Option<Id>)
    requires Inv(st) && s in st.sess && (idle.Some? ==> idle.value in st.live)
    ensures Inv(Login(st, s, t, idle))
  {
    hide Disjoint, Timed, Announced, Sessions, NoOrphans;
    LoginKeepsSound(st, s, t, idle);
    LoginKeepsNoOrphans(st, s, t, idle);
  }

  lemma CloseKeepsMaps<S>(st: State<S>, s: S)
    requires Sound(st) && s in st.sess
    ensures var n := Close(st, s); Tracked(n) && Disjoint(n) && Timed(n) && Announced(n)
  {
  }

  lemma CloseKeepsSessions<S>(st: State<S>, s: S)
    requires Sound(st) && s in st.sess
    ensures Sessions(Close(st, s))
  {
    hide Timed;
  }

  lemma CloseKeepsNoOrphans<S>(st: State<S>, s: S)
    requires s in st.sess && Owns(st, s)
    requires Tracked(st) && Disjoint(st) && Announced(st) && NoOrphans(st) && Tracked(Close(st, s))
    ensures NoOrphans(Close(st, s))
  {
    var n := Close(st, s);
    forall g, t | (g, t) in n.reg
      ensures WillBeTold(n, g, t)
    {
      assert WillBeTold(st, g, t);
    }
  }

  lemma CloseKeepsInv<S>(st: State<S>, s: S)
    requires Inv(st) && s in st.sess
    ensures Inv(Close(st, s))
  {
    assert Owns(st, s);
    hide Disjoint, Timed, Announced, Sessions, NoOrphans, Owns;
    CloseKeepsMaps(st, s);
    CloseKeepsSessions(st, s);
    CloseKeepsNoOrphans(st, s);
  }

  lemma ReconExpireKeepsInv<S>(st: State<S>, t: Id)
    requires Inv(st)
    ensures Inv(ReconExpire(st, t))
  {
  }

  lemma GameUpKeepsInv<S>(st: State<S>, g: Id)
    requires Inv(st) && g != 0
    ensures Inv(st.(live := st.live + {g}))
  {
  }

  lemma GameDownKeepsSound<S>(st: State<S>, g: Id)
    requires Sound(st)
    ensures Sound(GameDown(st, g))
  {
  }

  lemma GameDownKeepsInv<S>(st: State<S>, g: Id)
    requires Inv(st)
    ensures Inv(GameDown(st, g))
  {
    GameDownKeepsSound(st, g);
    hide Timed, Announced, Sessions;
  }

  lemma ChangeGsKeepsInv<S>(st: State<S>, sender: Id, t: Id, g: Id, known: bool)
    requires Inv(st) && (sender, t) in st.reg
    ensures Inv(ChangeGs(st, sender, t, g, known))
  {
  }

  lemma AcceptKeepsInv<S>(st: State<S>, s: S)
    requires Inv(st) && (s in st.sess ==> st.sess[s].phase == Disabled)
    ensures Inv(st.(sess := st.sess[s := NOBODY.(phase := WaitAccount)]))
  {
  }

  lemma WaitExpireKeepsInv<S>(st: State<S>, t: Id)
    requires Inv(st)
    ensures Inv(WaitExpire(st, t))
  {
  }

  lemma StepKeepsInv<S>(st: State<S>, e: Step<S>)
    requires Inv(st) && Enabled(st, e)
    ensures Inv(Next(st, e))
  {
    hide Sound, NoOrphans;
    match e
    case StepAddToWait(t, a, c) => AddToWaitKeepsInv(st, t, a, c);
    case StepKick(t) => KickKeepsInv(st, t);
    case StepAccept(s) => AcceptKeepsInv(st, s);
    case StepLogin(s, t, idle) => LoginKeepsInv(st, s, t, idle);
    case StepClose(s) => CloseKeepsInv(st, s);
    case StepWaitExpire(t) => WaitExpireKeepsInv(st, t);
    case StepReconExpire(t) => ReconExpireKeepsInv(st, t);
    case StepGameUp(g) => GameUpKeepsInv(st, g);
    case StepGameDown(g) => GameDownKeepsInv(st, g);
    case StepChangeGs(sender, t, g, known) => ChangeGsKeepsInv(st, sender, t, g, known);
  }

  // -------------------------------------------------------------------------------------------
  // Every run
  // -------------------------------------------------------------------------------------------

  /** The states of a run: each follows from the one before by an enabled step. */
  ghost predicate Run<S>(states: seq<State<S>>, steps: seq<Step<S>>) {
    && |states| == |steps| + 1 && states[0] == Start()
    && forall k :: 0 <= k < |steps| ==> Tracked(states[k]) && Enabled(states[k], steps[k]) && states[k + 1] == Next(states[k], steps[k])
  }

  /** In every state of every run with fresh ids: the maps are disjoint, every waiting or reconnecting id
      has its timer, and every player a live game server knows of is online or may reconnect. */
  lemma EveryRunKeepsInv<S>(states: seq<State<S>>, steps: seq<Step<S>>, k: nat)
    requires Run(states, steps) && k < |states|
    ensures Inv(states[k])
  {
    for i := 0 to k
      invariant Inv(states[i])
    {
      hide Inv, Enabled, Next;
      StepKeepsInv(states[i], steps[i]);
    }
  }

  /** A reconnect timer that fires when the player has come back does nothing else. */
  lemma StaleTimerIsHarmless<S>(st: State<S>, t: Id)
    requires Inv(st) && t in st.online
    ensures ReconExpire(st, t) == st.(reconTimers := st.reconTimers - multiset{t})
  {
    assert st.recon - {t} == st.recon;
  }

  /** Once the reconnect timer of an absent player has fired no game server has the player. */
  lemma ExpiryReleasesPlayer<S>(st: State<S>, t: Id, g: Id)
    requires Inv(st) && t !in st.online
    ensures (g, t) !in ReconExpire(st, t).reg
  {
    if (g, t) in st.reg {
      assert WillBeTold(st, g, t);
    }
  }

  /** Only one game server at a time has a player. */
  lemma OneServerPerPlayer<S>(st: State<S>, g: Id, h: Id, t: Id)
    requires Inv(st) && (g, t) in st.reg && (h, t) in st.reg
    ensures g == h
  {
    assert WillBeTold(st, g, t) && WillBeTold(st, h, t);
  }

  // -------------------------------------------------------------------------------------------
  // Who may come in
  // -------------------------------------------------------------------------------------------

  /** Id `t` has been announced, and no player is connected, or still has a session, under it. */
  ghost predicate Idle<S>(st: State<S>, t: Id) {
    t in st.used && t !in st.online && forall s :: s in st.sess ==> st.sess[s].tran != t
  }

  /** Whether a step decides what becomes of an idle id that waits or may reconnect. */
  ghost predicate Decides<S>(st: State<S>, e: Step<S>, t: Id) {
    match e
    case StepKick(u) => u == t && (t in st.wait || t in st.recon)
    case StepLogin(s, u, idle) => u == t && (t in st.wait || t in st.recon)
    case StepWaitExpire(u) => u == t && t in st.wait
    case StepReconExpire(u) => u == t && t in st.recon
    case StepGameDown(g) => t in st.recon && st.recon[t] == g
    case _ => false
  }

  /** Nothing about id `t` has changed from `st` to `n`. */
  ghost predicate LeftAlone<S>(st: State<S>, n: State<S>, t: Id) {
    && Idle(n, t)
    && (t in n.wait <==> t in st.wait) && (t in st.wait ==> n.wait[t] == st.wait[t])
    && (t in n.chan <==> t in st.chan) && (t in st.chan ==> n.chan[t] == st.chan[t])
    && (t in n.recon <==> t in st.recon)
    && (t in st.recon ==> n.recon[t] == st.recon[t] && (st.recon[t] in st.live ==> st.recon[t] in n.live))
    && forall g :: (g, t) in n.reg <==> (g, t) in st.reg
  }

  lemma AddToWaitLeavesAlone<S>(st: State<S>, u: Id, a: Account, c: int, t: Id)
    requires Inv(st) && Idle(st, t) && u !in st.used
    ensures LeftAlone(st, AddToWait(st, u, a, c), t)
  {
    hide Timed, NoOrphans, Sessions;
  }

  lemma KickLeavesAlone<S>(st: State<S>, u: Id, t: Id)
    requires Inv(st) && Idle(st, t) && (u == t ==> t !in st.wait && t !in st.recon)
    ensures LeftAlone(st, Kick(st, u), t)
  {
    hide Timed, NoOrphans, Sessions;
  }

  lemma ConnectLeavesAlone<S>(st: State<S>, s: S, u: Id, g: Id, t: Id)
    requires Idle(st, t) && u != t
    ensures var n := Connect(TakeOut(st, u), s, u, g);
      LeftAlone(st, n, t) && forall h :: LeftAlone(st, n.(reg := st.reg + {(h, u)}), t)
  {
  }

  lemma RefuseLeavesAlone<S>(st: State<S>, s: S, u: Id, t: Id)
    requires Idle(st, t) && s in st.sess
    ensures LeftAlone(st, Refuse(st, s), t) && (u != t ==> LeftAlone(st, Refuse(TakeOut(st, u), s), t))
  {
  }

  lemma LoginLeavesAlone<S>(st: State<S>, s: S, u: Id, idle: Option<Id>, t: Id)
    requires Inv(st) && Idle(st, t) && s in st.sess && (u == t ==> t !in st.wait && t !in st.recon)
    ensures LeftAlone(st, Login(st, s, u, idle), t)
  {
    assert LeftAlone(st, st, t);
    RefuseLeavesAlone(st, s, u, t);
    if u != t {
      ConnectLeavesAlone(st, s, u, if idle.Some? then idle.value else 0, t);
      ConnectLeavesAlone(st, s, u, if u in st.recon then st.recon[u] else 0, t);
    }
    hide Sound, NoOrphans, LeftAlone, Idle, Connect, Refuse, TakeOut;
  }

  lemma CloseLeavesAlone<S>(st: State<S>, s: S, t: Id)
    requires Inv(st) && Idle(st, t) && s in st.sess
    ensures LeftAlone(st, Close(st, s), t)
  {
    hide Timed, NoOrphans, Sessions;
  }

  lemma GameDownLeavesAlone<S>(st: State<S>, g: Id, t: Id)
    requires Inv(st) && Idle(st, t) && (t in st.recon ==> st.recon[t] != g)
    ensures LeftAlone(st, GameDown(st, g), t)
  {
    hide Timed, Sessions;
    assert forall h :: (h, t) in st.reg ==> WillBeTold(st, h, t);
  }

  lemma ChangeGsLeavesAlone<S>(st: State<S>, sender: Id, u: Id, g: Id, known: bool, t: Id)
    requires Inv(st) && Idle(st, t)
    ensures LeftAlone(st, ChangeGs(st, sender, u, g, known), t)
  {
    hide Timed, NoOrphans, Sessions;
  }

  lemma RestLeavesAlone<S>(st: State<S>, e: Step<S>, t: Id)
    requires Inv(st) && Enabled(st, e) && Idle(st, t) && !Decides(st, e, t)
    requires e.StepAccept? || e.StepWaitExpire? || e.StepReconExpire? || e.StepGameUp?
    ensures LeftAlone(st, Next(st, e), t)
  {
    hide Timed, NoOrphans, Sessions, AddToWait, Kick, Login, Close, GameDown, ChangeGs;
  }

  /** Whatever happens to others leaves an idle id alone. */
  lemma OthersLeaveAlone<S>(st: State<S>, e: Step<S>, t: Id)
    requires Inv(st) && Enabled(st, e) && Idle(st, t) && !Decides(st, e, t)
    ensures LeftAlone(st, Next(st, e), t)
  {
    hide Sound, NoOrphans, Idle, LeftAlone;
    match e
    case StepAddToWait(u, a, c) => AddToWaitLeavesAlone(st, u, a, c, t);
    case StepKick(u) => KickLeavesAlone(st, u, t);
    case StepLogin(s, u, idle) => LoginLeavesAlone(st, s, u, idle, t);
    case StepClose(s) => CloseLeavesAlone(st, s, t);
    case StepGameDown(g) => GameDownLeavesAlone(st, g, t);
    case StepChangeGs(sender, u, g, known) => ChangeGsLeavesAlone(st, sender, u, g, known, t);
    case _ => RestLeavesAlone(st, e, t);
  }

  /** So in every run nothing about it changes until a step decides what becomes of it. */
  lemma StaysAlone<S>(states: seq<State<S>>, steps: seq<Step<S>>, i: nat, k: nat, t: Id)
    requires Run(states, steps) && i <= k < |states| && Idle(states[i], t)
    requires forall j :: i <= j < k ==> !Decides(states[j], steps[j], t)
    ensures LeftAlone(states[i], states[k], t)
  {
    for j := i to k
      invariant LeftAlone(states[i], states[j], t)
    {
      EveryRunKeepsInv(states, steps, j);
      hide Inv, Enabled, Next, Decides;
      OthersLeaveAlone(states[j], steps[j], t);
    }
  }

  /** Id `t` has been announced, with this account and channel, and its player has not logged in yet. */
  ghost predicate Awaited<S>(st: State<S>, t: Id, a: Account, c: int) {
    t in st.wait && st.wait[t] == a && t in st.chan && st.chan[t] == c
  }

  lemma AnnounceAwaits<S>(st: State<S>, t: Id, a: Account, c: int)
    requires Inv(st) && t !in st.used
    ensures Awaited(AddToWait(st, t, a, c), t, a, c)
  {
  }

  lemma AwaitedIsIdle<S>(st: State<S>, t: Id, a: Account, c: int)
    requires Inv(st) && Awaited(st, t, a, c)
    ensures Idle(st, t)
  {
    forall s | s in st.sess
      ensures st.sess[s].tran != t
    {
      assert Owns(st, s);
    }
  }

  lemma LoginOfAwaited<S>(st: State<S>, s: S, t: Id, g: Id, a: Account, c: int)
    requires Inv(st) && Awaited(st, t, a, c) && s in st.sess && st.sess[s].phase != Connected
    ensures var n := Login(st, s, t, Some(g));
      s in n.sess && n.sess[s] == Info(Connected, t, g) && t in n.online && n.online[t] == s && (g, t) in n.reg
  {
  }

  /** In every run: whoever is announced, and logs in before being kicked or given up, on a connection that is
      not connected yet, is connected to the idle game server, which is told; and the account and the channel
      are still those announced. */
  lemma AnnouncedPlayerConnects<S>(states: seq<State<S>>, steps: seq<Step<S>>, i: nat, k: nat, t: Id, a: Account, c: int, g: Id)
    requires Run(states, steps) && i < k < |steps|
    requires steps[i] == StepAddToWait(t, a, c) && steps[k].StepLogin? && steps[k].t == t && steps[k].idle == Some(g)
    requires forall j :: i < j < k ==> !Decides(states[j], steps[j], t)
    requires steps[k].s in states[k].sess && states[k].sess[steps[k].s].phase != Connected
    ensures Awaited(states[k], t, a, c)
    ensures var s, n := steps[k].s, states[k + 1];
      s in n.sess && n.sess[s] == Info(Connected, t, g) && t in n.online && n.online[t] == s && (g, t) in n.reg
  {
    EveryRunKeepsInv(states, steps, i);
    AnnounceAwaits(states[i], t, a, c);
    EveryRunKeepsInv(states, steps, i + 1);
    hide Inv, Decides, Login;
    AwaitedIsIdle(states[i + 1], t, a, c);
    StaysAlone(states, steps, i + 1, k, t);
    EveryRunKeepsInv(states, steps, k);
    LoginOfAwaited(states[k], steps[k].s, t, g, a, c);
  }

  lemma CloseMakesIdle<S>(st: State<S>, s: S)
    requires Inv(st) && s in st.sess
    requires var i := st.sess[s]; i.phase == Connected && i.gs in st.live && i.tran in st.online
    ensures var i, n := st.sess[s], Close(st, s);
      Idle(n, i.tran) && i.tran in n.recon && n.recon[i.tran] == i.gs && i.tran in n.reconTimers && n.reg == st.reg
  {
    assert Owns(st, s);
  }

  lemma LoginOfAway<S>(st: State<S>, r: S, t: Id, idle: Option<Id>)
    requires Inv(st) && t in st.recon && r in st.sess && st.sess[r].phase != Connected
    ensures var n := Login(st, r, t, idle);
      r in n.sess && n.sess[r] == Info(Connected, t, st.recon[t]) && t in n.online && n.online[t] == r && n.reg == st.reg
  {
  }

  /** In every run: a player who loses the connection to a live server and logs in again, whatever happens
      meanwhile to other players and other servers, before the time is over, a kick or the loss of that server,
      is connected in the new session to the same server, which still has the player if it had. */
  lemma LostPlayerReturns<S>(states: seq<State<S>>, steps: seq<Step<S>>, i: nat, k: nat, s: S, t: Id, g: Id)
    requires Run(states, steps) && i < k < |steps|
    requires s in states[i].sess && states[i].sess[s] == Info(Connected, t, g) && t in states[i].online && g in states[i].live
    requires steps[i] == StepClose(s) && steps[k].StepLogin? && steps[k].t == t
    requires forall j :: i < j < k ==> !Decides(states[j], steps[j], t)
    requires steps[k].s in states[k].sess && states[k].sess[steps[k].s].phase != Connected
    ensures var r, n := steps[k].s, states[k + 1];
      r in n.sess && n.sess[r] == Info(Connected, t, g) && t in n.online && n.online[t] == r &&
      ((g, t) in n.reg <==> (g, t) in states[i].reg)
  {
    EveryRunKeepsInv(states, steps, i);
    CloseMakesIdle(states[i], s);
    hide Inv, Decides, Login, Close;
    StaysAlone(states, steps, i + 1, k, t);
    EveryRunKeepsInv(states, steps, k);
    LoginOfAway(states[k], steps[k].s, t, steps[k].idle);
  }

  /** Whether a step ends the time of an id that waits or may reconnect: a kick, the end of either time, the loss
      of its server, or a login for which there is no idle server. */
  ghost predicate Ends<S>(st: State<S>, e: Step<S>, t: Id) {
    Decides(st, e, t) &&
    (e.StepLogin? ==> e.s in st.sess && st.sess[e.s].phase != Connected && t in st.wait && e.idle == None)
  }

  /** That leaves nothing of it. */
  lemma EndedIsGone<S>(st: State<S>, e: Step<S>, t: Id)
    requires Inv(st) && Enabled(st, e) && Ends(st, e, t)
    ensures Idle(Next(st, e), t) && Nowhere(Next(st, e), t)
  {
    hide Timed, NoOrphans;
    forall s | s in st.sess
      ensures st.sess[s].tran != t
    {
      assert Owns(st, s);
    }
  }

  /** And in every run such a player never gets in again: every login is refused, on every connection. */
  lemma GonePlayerStaysOut<S>(states: seq<State<S>>, steps: seq<Step<S>>, i: nat, k: nat, t: Id)
    requires Run(states, steps) && i < k < |steps|
    requires Ends(states[i], steps[i], t)
    requires steps[k].StepLogin? && steps[k].t == t
    requires steps[k].s in states[k].sess && states[k].sess[steps[k].s].phase != Connected
    ensures var s, n := steps[k].s, states[k + 1];
      n == states[k].(sess := n.sess) && s in n.sess && n.sess[s] == states[k].sess[s].(phase := WaitClose)
  {
    EveryRunKeepsInv(states, steps, i);
    EndedIsGone(states[i], steps[i], t);
    for j := i + 1 to k
      invariant Idle(states[j], t) && Nowhere(states[j], t)
    {
      EveryRunKeepsInv(states, steps, j);
      assert !Decides(states[j], steps[j], t);
      hide Inv, Enabled, Next, Decides;
      OthersLeaveAlone(states[j], steps[j], t);
    }
  }

  /** A move that its own server asks for: the player is on the new server, and on no other. */
  lemma MovedPlayerIsThere<S>(st: State<S>, sender: Id, t: Id, g: Id)
    requires Inv(st) && (sender, t) in st.reg && t in st.online && g in st.live
    ensures var n := ChangeGs(st, sender, t, g, true);
      Tracked(n) && n.online == st.online && n.sess[n.online[t]] == Info(Connected, t, g) &&
      forall h :: (h, t) in n.reg <==> h == g
  {
    assert WillBeTold(st, sender, t);
    forall h | (h, t) in st.reg
      ensures h == sender
    {
      assert WillBeTold(st, h, t);
    }
  }

  // -------------------------------------------------------------------------------------------
  // Where the guarantees end
  // -------------------------------------------------------------------------------------------

  /** Announcing any id, fresh or not, keeps the maps disjoint exactly when the id may not reconnect. */
  lemma AddToWaitDisjointIff<S>(st: State<S>, t: Id, a: Account, c: int)
    requires Tracked(st) && Disjoint(st)
    ensures Disjoint(AddToWait(st, t, a, c)) <==> t !in st.recon
  {
    var n := AddToWait(st, t, a, c);
    if t in st.recon {
      assert t in n.wait.Keys && t in n.recon.Keys;
    }
  }

  /** Closing any session keeps them disjoint exactly when it is not a connected session, on a live
      server, whose id has meanwhile been announced again. */
  lemma CloseDisjointIff<S>(st: State<S>, s: S)
    requires Disjoint(st) && s in st.sess
    ensures var i := st.sess[s];
      Disjoint(Close(st, s)) <==> !(i.phase == Connected && i.gs in st.live && i.tran in st.wait)
  {
    var i := st.sess[s];
    var n := Close(st, s);
    if i.phase == Connected && i.gs in st.live && i.tran in st.wait {
      assert i.tran in n.wait.Keys && i.tran in n.recon.Keys;
    }
  }

  /** The state is the last one of some run. */
  ghost predicate Reached<S(!new)>(st: State<S>) {
    exists states: seq<State<S>>, steps: seq<Step<S>> :: Run(states, steps) && states[|steps|] == st
  }

  lemma ReachedNext<S(!new)>(st: State<S>, e: Step<S>)
    requires Reached(st) && Tracked(st) && Enabled(st, e)
    ensures Reached(Next(st, e)) && Inv(Next(st, e))
  {
    hide Enabled, Next, Inv;
    var states: seq<State<S>>, steps: seq<Step<S>> :| Run(states, steps) && states[|steps|] == st;
    var longer := states + [Next(st, e)];
    assert Run(longer, steps + [e]);
    EveryRunKeepsInv(longer, steps + [e], |steps| + 1);
  }

  /** Server 5 is live and player 1 is online on it, in session `s`. */
  function OnePlayer<S>(s: S): State<S> {
    State(map[1 := s], map[], map[], map[], multiset{1}, multiset{}, map[s := Info(Connected, 1, 5)], {5}, {(5, 1)}, {1})
  }

  /** Server 5 is live and id 1 waits. */
  function Expected<S>(): State<S> {
    State(map[], map[1 := 7], map[1 := 0], map[], multiset{1}, multiset{}, map[], {5}, {}, {1})
  }

  /** Then its player's connection `s` has been accepted. */
  function Joined<S>(s: S): State<S> {
    Expected().(sess := map[s := Info(WaitAccount, 0, 0)])
  }

  lemma AnnouncedIsExpected<S>()
    ensures AddToWait(Start<S>().(live := {5}), 1, 7, 0) == Expected()
  {
  }

  lemma ExpectedIsReached<S(!new)>()
    ensures Reached(Expected<S>())
  {
    var up := Start<S>().(live := {5});
    assert Run([Start<S>()], []);
    assert Reached(Start<S>());
    hide Reached, Run, Inv;
    ReachedNext(Start<S>(), StepGameUp(5));
    ReachedNext(up, StepAddToWait(1, 7, 0));
    AnnouncedIsExpected<S>();
  }

  lemma LoginOfJoined<S>(s: S)
    ensures Login(Joined(s), s, 1, Some(5)) == OnePlayer(s)
  {
    var w := TakeOut(Joined(s), 1);
    assert w.wait == map[] && w.chan == map[];
    assert Connect(w, s, 1, 5).sess == map[s := Info(Connected, 1, 5)];
  }

  lemma OnePlayerIsReached<S(!new)>(s: S)
    ensures Reached(OnePlayer(s)) && Inv(OnePlayer(s))
  {
    hide Reached, Inv;
    ExpectedIsReached<S>();
    ReachedNext(Expected(), StepAccept(s));
    assert Next(Expected(), StepAccept(s)) == Joined(s);
    ReachedNext(Joined(s), StepLogin(s, 1, Some(5)));
    LoginOfJoined(s);
  }

  /** The same with a second live server, 6. */
  function TwoServers<S>(s: S): State<S> { OnePlayer(s).(live := {5, 6}) }

  lemma TwoServersIsReached<S(!new)>(s: S)
    ensures Reached(TwoServers(s)) && Inv(TwoServers(s))
  {
    hide Reached, Inv;
    OnePlayerIsReached(s);
    ReachedNext(OnePlayer(s), StepGameUp(6));
    assert {5} + {6} == {5, 6};
  }

  /** From there the id is announced again, which kicks the player, and only then does the old session
      close: the id now waits and may reconnect at once. */
  lemma ReissuedIdBreaksDisjointness<S(!new)>(s: S)
    ensures Reached(OnePlayer(s))
    ensures var again := AddToWait(OnePlayer(s), 1, 7, 0); Disjoint(again) && !Disjoint(Close(again, s))
  {
    OnePlayerIsReached(s);
    hide Reached;
    AddToWaitDisjointIff(OnePlayer(s), 1, 7, 0);
    CloseDisjointIff(AddToWait(OnePlayer(s), 1, 7, 0), s);
  }

  /** The converse of NoOrphans: a player who is connected, or who may reconnect, is known to the game
      server that the gate has noted. */
  ghost predicate Known<S>(st: State<S>)
    requires Tracked(st)
  {
    && (forall t :: t in st.recon ==> (st.recon[t], t) in st.reg)
    && (forall t :: t in st.online && st.sess[st.online[t]].tran == t && st.sess[st.online[t]].phase == Connected ==>
          (st.sess[st.online[t]].gs, t) in st.reg)
  }

  /** A session that is closed before its id is off the map of online players was not kicked. */
  ghost predicate Attached<S>(st: State<S>) {
    forall s :: s in st.sess && st.sess[s].phase == Connected ==> st.sess[s].tran in st.online
  }

  lemma CloseKnownIff<S>(st: State<S>, s: S)
    requires Inv(st) && Known(st) && s in st.sess
    ensures Tracked(Close(st, s))
    ensures var i := st.sess[s];
      Known(Close(st, s)) <==> !(i.phase == Connected && i.gs in st.live && i.tran !in st.online)
  {
    var i, n := st.sess[s], Close(st, s);
    assert Owns(st, s);
    CloseKeepsMaps(st, s);
    if i.phase == Connected && i.gs in st.live && i.tran !in st.online {
      assert n.recon[i.tran] == i.gs;
      assert !WillBeTold(st, i.gs, i.tran);
    }
  }

  lemma ChangeGsKnownIff<S>(st: State<S>, sender: Id, t: Id, g: Id, known: bool)
    requires Inv(st) && Known(st) && (sender, t) in st.reg
    ensures Tracked(ChangeGs(st, sender, t, g, known))
    ensures Known(ChangeGs(st, sender, t, g, known)) <==> !(t in st.online && g in st.live && !known)
  {
    assert WillBeTold(st, sender, t);
  }

  lemma KickKeepsKnown<S>(st: State<S>, t: Id)
    requires Inv(st) && Known(st)
    ensures Tracked(Kick(st, t)) && Known(Kick(st, t))
  {
  }

  lemma LoginKeepsKnown<S>(st: State<S>, s: S, t: Id, idle: Option<Id>)
    requires s in st.sess && Inv(st) && Known(st) && Tracked(Login(st, s, t, idle))
    ensures Known(Login(st, s, t, idle))
  {
  }

  lemma GameDownKeepsKnown<S>(st: State<S>, g: Id)
    requires Inv(st) && Known(st)
    ensures Tracked(GameDown(st, g)) && Known(GameDown(st, g))
  {
  }

  lemma ReconExpireKeepsKnown<S>(st: State<S>, t: Id)
    requires Inv(st) && Known(st)
    ensures Tracked(ReconExpire(st, t)) && Known(ReconExpire(st, t))
  {
  }

  /** Whether a step leaves a connected or reconnecting player behind whom no game server knows: a session
      closes whose player has been kicked, or the account of a player to be moved is not found. */
  ghost predicate Forgets<S>(st: State<S>, e: Step<S>) {
    match e
    case StepClose(s) =>
      s in st.sess && st.sess[s].phase == Connected && st.sess[s].gs in st.live && st.sess[s].tran !in st.online
    case StepChangeGs(sender, t, g, known) => t in st.online && g in st.live && !known
    case _ => false
  }

  lemma AcceptKeepsKnown<S>(st: State<S>, s: S)
    requires Inv(st) && Known(st) && (s in st.sess ==> st.sess[s].phase == Disabled)
    ensures var n := st.(sess := st.sess[s := NOBODY.(phase := WaitAccount)]); Tracked(n) && Known(n)
  {
  }

  lemma AddToWaitKeepsKnown<S>(st: State<S>, t: Id, a: Account, c: int)
    requires Inv(st) && Known(st) && t !in st.used
    ensures Tracked(AddToWait(st, t, a, c)) && Known(AddToWait(st, t, a, c))
  {
  }

  lemma OthersKeepKnown<S>(st: State<S>, t: Id, g: Id)
    requires Tracked(st) && Known(st)
    ensures Tracked(WaitExpire(st, t)) && Known(WaitExpire(st, t))
    ensures Known(st.(live := st.live + {g}))
  {
  }

  /** Every step of every run keeps the players known, exactly with these two exceptions. */
  lemma StepKnownIff<S>(st: State<S>, e: Step<S>)
    requires Inv(st) && Known(st) && Enabled(st, e)
    ensures Tracked(Next(st, e)) && (Known(Next(st, e)) <==> !Forgets(st, e))
  {
    hide Disjoint, Timed, Announced, Sessions, NoOrphans, Known;
    StepKeepsInv(st, e);
    match e
    case StepAddToWait(t, a, c) => AddToWaitKeepsKnown(st, t, a, c);
    case StepKick(t) => KickKeepsKnown(st, t);
    case StepAccept(s) => AcceptKeepsKnown(st, s);
    case StepLogin(s, t, idle) => LoginKeepsKnown(st, s, t, idle);
    case StepClose(s) => CloseKnownIff(st, s);
    case StepWaitExpire(t) => OthersKeepKnown(st, t, 0);
    case StepReconExpire(t) => ReconExpireKeepsKnown(st, t);
    case StepGameUp(g) => OthersKeepKnown(st, 0, g);
    case StepGameDown(g) => GameDownKeepsKnown(st, g);
    case StepChangeGs(sender, t, g, known) => ChangeGsKnownIff(st, sender, t, g, known);
  }

  lemma CloseKeepsAttached<S>(st: State<S>, s: S)
    requires Inv(st) && Attached(st) && s in st.sess
    ensures Attached(Close(st, s))
  {
    hide Disjoint, Timed, NoOrphans;
  }

  lemma LoginKeepsAttached<S>(st: State<S>, s: S, t: Id, idle: Option<Id>)
    requires s in st.sess && Attached(st)
    ensures Attached(Login(st, s, t, idle))
  {
  }

  lemma ChangeGsKeepsAttached<S>(st: State<S>, sender: Id, t: Id, g: Id, known: bool)
    requires Tracked(st) && Attached(st)
    ensures Attached(ChangeGs(st, sender, t, g, known))
  {
  }

  lemma StepKeepsAttached<S>(st: State<S>, e: Step<S>)
    requires Inv(st) && Attached(st) && Enabled(st, e) && !e.StepKick?
    ensures Attached(Next(st, e))
  {
    hide Disjoint, Timed, Sessions, NoOrphans, Close, Login, ChangeGs;
    match e
    case StepLogin(s, t, idle) => LoginKeepsAttached(st, s, t, idle);
    case StepClose(s) => CloseKeepsAttached(st, s);
    case StepChangeGs(sender, t, g, known) => ChangeGsKeepsAttached(st, sender, t, g, known);
    case _ =>
  }

  lemma AttachedForgets<S>(st: State<S>, e: Step<S>)
    requires Attached(st) && (e.StepChangeGs? ==> e.known)
    ensures !Forgets(st, e)
  {
  }

  lemma StartIsKnown<S>()
    ensures Inv(Start<S>()) && Known(Start<S>()) && Attached(Start<S>())
  {
  }

  /** In every run without kicks in which the accounts of moved players are found, every connected or
      reconnecting player is known to the game server that the gate has noted. */
  lemma RunsWithoutKicksKeepKnown<S>(states: seq<State<S>>, steps: seq<Step<S>>, k: nat)
    requires Run(states, steps) && k < |states|
    requires forall i :: 0 <= i < |steps| ==> !steps[i].StepKick? && (steps[i].StepChangeGs? ==> steps[i].known)
    ensures Inv(states[k]) && Known(states[k])
  {
    StartIsKnown<S>();
    for i := 0 to k
      invariant Inv(states[i]) && Known(states[i]) && Attached(states[i])
    {
      hide Sound, NoOrphans, Known, Attached, Enabled, Next, Forgets;
      StepKeepsInv(states[i], steps[i]);
      StepKeepsAttached(states[i], steps[i]);
      AttachedForgets(states[i], steps[i]);
      StepKnownIff(states[i], steps[i]);
    }
  }

  /** The run that breaks it: the player of OnePlayer is kicked, the session closes, and the player comes
      back in session `r`. The player is connected, and no game server has it. */
  lemma KickedPlayerReturnsUnknown<S(!new)>(s: S, r: S)
    requires s != r
    ensures var kicked := Kick(OnePlayer(s), 1);
      var closed := Close(kicked, s);
      var joined := closed.(sess := closed.sess[r := NOBODY.(phase := WaitAccount)]);
      var back := Login(joined, r, 1, None);
      Known(OnePlayer(s)) && Known(kicked) && Tracked(closed) && !Known(closed) &&
      Reached(back) && back.online == map[1 := r] && back.sess[r] == Info(Connected, 1, 5) && back.reg == {}
  {
    hide Reached, Inv;
    OnePlayerIsReached(s);
    var kicked := Kick(OnePlayer(s), 1);
    ReachedNext(OnePlayer(s), StepKick(1));
    assert kicked.online == map[] && kicked.reg == {};
    var closed := Close(kicked, s);
    ReachedNext(kicked, StepClose(s));
    assert closed.recon == map[1 := 5] && closed.reg == {} && closed.online == map[];
    ReachedNext(closed, StepAccept(r));
    ReachedNext(closed.(sess := closed.sess[r := NOBODY.(phase := WaitAccount)]), StepLogin(r, 1, None));
  }

  /** The other one: the player's own server asks for a move to server 6, and the account is not found. */
  lemma LostAccountLeavesUnknown<S(!new)>(s: S)
    ensures var n := ChangeGs(TwoServers(s), 5, 1, 6, false);
      Known(TwoServers(s)) && Reached(n) && Tracked(n) && !Known(n)
  {
    hide Reached;
    TwoServersIsReached(s);
    ReachedNext(TwoServers(s), StepChangeGs(5, 1, 6, false));
    ChangeGsKnownIff(TwoServers(s), 5, 1, 6, false);
  }

  /** Every player a live game server knows of can be found under that server. */
  ghost predicate Traceable<S>(st: State<S>)
    requires Tracked(st)
  {
    forall g, t :: (g, t) in st.reg ==>
      && g in st.live
      && ((t in st.online && st.sess[st.online[t]].tran == t && st.sess[st.online[t]].gs == g) || (t in st.recon && st.recon[t] == g))
  }

  /** The gate does not check who asks for a move. Players stay traceable exactly when the session found
      under the id still has that id, and the server that asked is the one that has the player. */
  lemma ChangeGsTraceableIff<S>(st: State<S>, sender: Id, t: Id, g: Id, known: bool)
    requires Inv(st)
    ensures Tracked(ChangeGs(st, sender, t, g, known))
    ensures Traceable(ChangeGs(st, sender, t, g, known)) <==>
      (t in st.online && g in st.live && known ==>
        var s := st.online[t];
        var i := st.sess[s];
        i.tran in st.online && st.online[i.tran] == s && (i.gs == g || i.gs == sender || (i.gs, i.tran) !in st.reg))
  {
    var n := ChangeGs(st, sender, t, g, known);
    if t in st.online && g in st.live && known {
      var i := st.sess[st.online[t]];
      assert (g, i.tran) in n.reg;
      assert i.gs != g && i.gs != sender && (i.gs, i.tran) in st.reg ==> (i.gs, i.tran) in n.reg;
    }
  }

  /** Server 6 asks to move the player of server 5 to itself: both servers have the player. */
  lemma MoveByOtherServer<S(!new)>(s: S)
    ensures Reached(TwoServers(s))
    ensures var n := ChangeGs(TwoServers(s), 6, 1, 6, true); n.reg == {(5, 1), (6, 1)} && Tracked(n) && !Traceable(n)
  {
    TwoServersIsReached(s);
    hide Reached;
    ChangeGsTraceableIff(TwoServers(s), 6, 1, 6, true);
  }

  // -------------------------------------------------------------------------------------------
  // Whether an online id leads to its own session
  // -------------------------------------------------------------------------------------------

  /** The converse of Owns: the session found under an online id has that id. */
  ghost predicate Leads<S>(st: State<S>)
    requires Tracked(st)
  {
    forall t :: t in st.online ==> st.sess[st.online[t]].tran == t
  }

  /** A session that has an online id, but is not connected any more, logs in under another one. */
  ghost predicate Rejoins<S>(st: State<S>, e: Step<S>) {
    && e.StepLogin? && e.s in st.sess && st.sess[e.s].phase != Connected
    && ((e.t in st.wait && e.idle.Some?) || e.t in st.recon)
    && st.sess[e.s].tran in st.online
  }

  lemma LoginLeadsIff<S>(st: State<S>, s: S, t: Id, idle: Option<Id>)
    requires Inv(st) && Leads(st) && s in st.sess && Tracked(Login(st, s, t, idle))
    ensures Leads(Login(st, s, t, idle)) <==> !Rejoins(st, StepLogin(s, t, idle))
  {
    var n, u := Login(st, s, t, idle), st.sess[s].tran;
    assert Owns(st, s);
    if Rejoins(st, StepLogin(s, t, idle)) {
      assert u in n.online && n.online[u] == s && n.sess[s].tran == t != u;
    }
  }

  lemma CloseKeepsLeads<S>(st: State<S>, s: S)
    requires Inv(st) && Leads(st) && s in st.sess
    ensures Tracked(Close(st, s)) && Leads(Close(st, s))
  {
    hide Disjoint, Timed, Announced, Sessions, NoOrphans;
  }

  lemma OthersKeepLeads<S>(st: State<S>, e: Step<S>)
    requires Inv(st) && Leads(st) && Enabled(st, e) && !e.StepLogin? && !e.StepClose?
    ensures Tracked(Next(st, e)) && Leads(Next(st, e))
  {
    hide Timed, NoOrphans;
  }

  /** Every step of every run keeps online ids leading to their own sessions, with this one exception. */
  lemma StepLeadsIff<S>(st: State<S>, e: Step<S>)
    requires Inv(st) && Leads(st) && Enabled(st, e)
    ensures Tracked(Next(st, e)) && (Leads(Next(st, e)) <==> !Rejoins(st, e))
  {
    hide Disjoint, Timed, Announced, Sessions, NoOrphans, Leads;
    StepKeepsInv(st, e);
    match e
    case StepLogin(s, t, idle) => LoginLeadsIff(st, s, t, idle);
    case StepClose(s) => CloseKeepsLeads(st, s);
    case _ => OthersKeepLeads(st, e);
  }

  /** Player 1's server has gone down, and id 2 waits. */
  function Told<S>(s: S): State<S> {
    State(map[1 := s], map[2 := 7], map[2 := 0], map[], multiset{1, 2}, multiset{}, map[s := Info(WaitClose, 1, 5)],
          {6}, {}, {1, 2})
  }

  lemma ToldIsReached<S(!new)>(s: S)
    ensures Reached(Told(s)) && Inv(Told(s))
  {
    hide Reached, Inv;
    TwoServersIsReached(s);
    ReachedNext(TwoServers(s), StepAddToWait(2, 7, 0));
    var waiting := AddToWait(TwoServers(s), 2, 7, 0);
    ReachedNext(waiting, StepGameDown(5));
    GameDownIsTold(s);
  }

  lemma GameDownIsTold<S>(s: S)
    ensures GameDown(AddToWait(TwoServers(s), 2, 7, 0), 5) == Told(s)
  {
    var waiting := AddToWait(TwoServers(s), 2, 7, 0);
    assert waiting.online[1] == s;
    assert s in waiting.online.Values;
    assert ClosedBy(waiting, 5) == Told(s).sess;
    assert {5, 6} - {5} == {6};
  }

  /** Before its session closes player 1 logs in again, as player 2. Once the session has closed, id 1 is still
      online and leads to a session without a player. */
  lemma OldIdStaysOnline<S(!new)>(s: S)
    ensures var again := Login(Told(s), s, 2, Some(6));
      Leads(Told(s)) && Tracked(again) && !Leads(again) && s in again.sess &&
      var closed := Close(again, s);
      Reached(closed) && 1 in closed.online && closed.online[1] == s && closed.sess[s] == NOBODY
  {
    hide Reached, Inv;
    ToldIsReached(s);
    ReachedNext(Told(s), StepLogin(s, 2, Some(6)));
    var again := Login(Told(s), s, 2, Some(6));
    assert 1 in again.online && again.online[1] == s && again.sess[s].tran == 2;
    ReachedNext(again, StepClose(s));
  }
}
