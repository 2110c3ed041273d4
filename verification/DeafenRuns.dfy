/** Every interleaving of the server-deafen controller with its timers, its
    PATCH goroutines, Discord and `Close`.

    Assumed of the surroundings: a refused PATCH leaves Discord's flag as it was,
    an accepted one sets it, and a bot is registered once, with the flag it has. */
module DeafenRuns {
  import opened Deafen

  /** A PATCH goroutine. `Launching`: the bot is marked in flight, the wait group
      not yet raised. `Counted`: waiting for Discord. `Answered`: not recorded
      yet. `Noting`: recorded, about to report the error. */
  datatype Phase = Launching | Counted | Answered(ok: bool, permission: bool) | Noting(permission: bool)

  datatype Apply = Apply(deaf: bool, phase: Phase)

  /** The surroundings of one bot: Discord's flag, the goroutines started for the
      bot by the step that started them, the last of those, how many were
      started since the last effective observation, and whether `last` is one
      of these. */
  datatype World = World(discord: bool, flights: map<nat, Apply>, last: nat, issued: nat, current: bool)

  /** `Passed`: the wait is over, by draining or by the deadline. */
  datatype ClosePhase = Open | Waiting | Passed(drained: bool) | Restoring(left: set<Id>, clean: bool) | Done(clean: bool)

  datatype Sys = Sys(core: Core, worlds: map<Id, World>, tick: nat, close: ClosePhase)

  datatype Event =
    | Register(bot: Id, deaf: bool)
    | Observe(capturing: map<Id, bool>)
    | TimerFires(bot: Id)
    | Enter(bot: Id, n: nat)
    | Answer(bot: Id, n: nat, ok: bool, permission: bool)
    | Record(bot: Id, n: nat)
    | Note(bot: Id, n: nat)
    | JoinError(permission: bool)
    | CloseBegins
    | WaitEnds
    | WaitTimesOut
    | Snapshot
    | Restore(bot: Id, ok: bool)
    | CloseReturns

  const INIT := Sys(Core(map[], false, false), map[], 0, Open)

  predicate Active(a: Apply) { !a.phase.Noting? }

  // ---------------------------------------------------------------------------
  // Steps

  function Launched(w: World, tick: nat, deaf: bool, phase: Phase): World {
    w.(flights := w.flights[tick := Apply(deaf, phase)], last := tick, issued := w.issued + 1, current := true)
  }

  /** The bot's surroundings after an observation. */
  function Seen(w: World, tick: nat, now: bool): World {
    var reset := w.(issued := 0, current := false);
    if now then Launched(reset, tick, false, Launching) else reset
  }

  /** After Discord has answered goroutine `n`. */
  function Told(w: World, n: nat, ok: bool, permission: bool): World
    requires n in w.flights
  {
    w.(flights := w.flights[n := w.flights[n].(phase := Answered(ok, permission && !ok))],
       discord := if ok then w.flights[n].deaf else w.discord)
  }

  /** After goroutine `n` has recorded its answer. */
  function Settled(w: World, tick: nat, n: nat, undeafen: bool): World
    requires n in w.flights && w.flights[n].phase.Answered?
  {
    var a := w.flights[n];
    if undeafen then Launched(w.(flights := w.flights - {n}), tick, false, Counted)
    else if a.phase.ok then w.(flights := w.flights - {n})
    else w.(flights := w.flights[n := a.(phase := Noting(a.phase.permission))])
  }

  predicate InPhase(s: Sys, bot: Id, n: nat) {
    bot in s.worlds && n in s.worlds[bot].flights
  }

  function With(s: Sys, bot: Id, w: World): Sys {
    s.(worlds := s.worlds[bot := w])
  }

  /** The wait group is at zero. */
  predicate Drained(s: Sys) {
    forall b, n :: b in s.worlds && n in s.worlds[b].flights ==> s.worlds[b].flights[n].phase == Launching
  }

  function OnObserve(s: Sys, capturing: map<Id, bool>): Sys {
    if s.core.Off() then s
    else
      var (core, now) := ObserveCore(s.core, capturing);
      s.(core := core, worlds := map b | b in s.worlds :: Seen(s.worlds[b], s.tick, b in now))
  }

  function OnTimer(s: Sys, bot: Id): Sys {
    var (core, launch) := TimerCore(s.core, bot);
    var t := s.(core := core);
    if launch.Patch? && bot in s.worlds then With(t, bot, Launched(s.worlds[bot], s.tick, launch.deaf, Launching)) else t
  }

  function OnRecord(s: Sys, bot: Id, n: nat): Sys
    requires InPhase(s, bot, n) && s.worlds[bot].flights[n].phase.Answered?
  {
    var a := s.worlds[bot].flights[n];
    var (core, undeafen) := RecordCore(s.core, bot, a.deaf, a.phase.ok);
    With(s.(core := core), bot, Settled(s.worlds[bot], s.tick, n, undeafen))
  }

  function Effect(s: Sys, e: Event): Sys {
    match e
    case Register(bot, deaf) =>
      if bot in s.core.members || s.core.closed then s
      else With(s.(core := RegisterCore(s.core, bot, deaf)), bot, World(deaf, map[], 0, 0, false))
    case Observe(capturing) => OnObserve(s, capturing)
    case TimerFires(bot) => OnTimer(s, bot)
    case Enter(bot, n) =>
      if InPhase(s, bot, n) && s.worlds[bot].flights[n].phase == Launching
      then With(s, bot, s.worlds[bot].(flights := s.worlds[bot].flights[n := s.worlds[bot].flights[n].(phase := Counted)]))
      else s
    case Answer(bot, n, ok, permission) =>
      if InPhase(s, bot, n) && s.worlds[bot].flights[n].phase == Counted
      then With(s, bot, Told(s.worlds[bot], n, ok, permission)) else s
    case Record(bot, n) =>
      if InPhase(s, bot, n) && s.worlds[bot].flights[n].phase.Answered? then OnRecord(s, bot, n) else s
    case Note(bot, n) =>
      if InPhase(s, bot, n) && s.worlds[bot].flights[n].phase.Noting?
      then With(s.(core := NoteCore(s.core, s.worlds[bot].flights[n].phase.permission)), bot,
                s.worlds[bot].(flights := s.worlds[bot].flights - {n}))
      else s
    case JoinError(permission) => s.(core := NoteCore(s.core, permission))
    case CloseBegins => if s.close == Open then s.(core := CloseCore(s.core), close := Waiting) else s
    case WaitEnds => if s.close == Waiting && Drained(s) then s.(close := Passed(true)) else s
    case WaitTimesOut => if s.close == Waiting then s.(close := Passed(false)) else s
    case Snapshot => if s.close.Passed? then s.(close := Restoring(StillDeaf(s.core), s.close.drained)) else s
    case Restore(bot, ok) =>
      if s.close.Restoring? && bot in s.close.left && bot in s.worlds
      then With(s.(close := Restoring(s.close.left - {bot}, s.close.clean && ok)), bot,
                s.worlds[bot].(discord := s.worlds[bot].discord && !ok))
      else s
    case CloseReturns => if s.close.Restoring? && s.close.left == {} then s.(close := Done(s.close.clean)) else s
  }

  function Next(s: Sys, e: Event): Sys {
    Effect(s, e).(tick := s.tick + 1)
  }

  function Run(s: Sys, es: seq<Event>): Sys {
    if es == [] then s else Next(Run(s, es[..|es| - 1]), es[|es| - 1])
  }

  // ---------------------------------------------------------------------------
  // The invariant of one bot

  /** Work is never forgotten: a wanted change is in flight, on a timer, or out
      of budget. */
  predicate MemberOk(off: bool, m: Member) {
    && (m.timer ==> !off && !m.inFlight && m.want != m.deaf && m.failures < RETRY_LIMIT)
    && (!off && m.want != m.deaf ==> m.inFlight || m.timer || m.failures == RETRY_LIMIT)
    && (m.inFlight ==> m.failures < RETRY_LIMIT)
    && m.failures <= RETRY_LIMIT
  }

  /** The only live goroutine of a bot is the last one started, and it lives
      exactly while the bot is marked in flight. */
  predicate FlightsOk(tick: nat, m: Member, w: World) {
    && (forall n :: n in w.flights ==> n < tick)
    && (forall n :: n in w.flights && Active(w.flights[n]) ==> n == w.last && m.inFlight)
    && (m.inFlight ==> w.last in w.flights && Active(w.flights[w.last]))
  }

  predicate Unrecorded(m: Member, w: World) {
    m.inFlight && w.last in w.flights && w.flights[w.last].phase.Answered? && w.flights[w.last].phase.ok
  }

  /** The confirmed state is Discord's flag, but for an accepted PATCH that has
      not been recorded yet. */
  predicate FlagOk(m: Member, w: World) {
    w.discord == if Unrecorded(m, w) then w.flights[w.last].deaf else m.deaf
  }

  predicate BudgetOk(m: Member, w: World) {
    && w.issued <= RETRY_LIMIT
    && m.failures <= w.issued + (if m.inFlight then 0 else 1)
    && (m.inFlight ==> w.issued <= if w.current then m.failures + 1 else 0)
    && (!m.inFlight ==> w.issued <= m.failures || m.want == m.deaf)
    && (m.inFlight && w.current && w.last in w.flights ==> w.flights[w.last].deaf == m.want)
  }

  predicate BotOk(off: bool, tick: nat, restoring: bool, m: Member, w: World) {
    MemberOk(off, m) && FlightsOk(tick, m, w) && BudgetOk(m, w) && (!restoring ==> FlagOk(m, w))
  }

  lemma ObservedOk(tick: nat, restoring: bool, m: Member, w: World, want: bool)
    requires BotOk(false, tick, restoring, m, w)
    ensures BotOk(false, tick + 1, restoring, Observed(m, want).0, Seen(w, tick, Observed(m, want).1))
  {
  }

  lemma TimedOk(tick: nat, restoring: bool, m: Member, w: World)
    requires BotOk(false, tick, restoring, m, w) && m.timer
    ensures BotOk(false, tick + 1, restoring, m.(timer := false, inFlight := true), Launched(w, tick, m.want, Launching))
  {
  }

  lemma EnteredOk(off: bool, tick: nat, restoring: bool, m: Member, w: World, n: nat)
    requires BotOk(off, tick, restoring, m, w) && n in w.flights && w.flights[n].phase == Launching
    ensures BotOk(off, tick + 1, restoring, m, w.(flights := w.flights[n := w.flights[n].(phase := Counted)]))
  {
  }

  lemma ToldOk(off: bool, tick: nat, restoring: bool, m: Member, w: World, n: nat, ok: bool, permission: bool)
    requires BotOk(off, tick, restoring, m, w) && n in w.flights && w.flights[n].phase == Counted
    ensures BotOk(off, tick + 1, restoring, m, Told(w, n, ok, permission))
  {
  }

  lemma RecordedOk(off: bool, tick: nat, restoring: bool, m: Member, w: World, n: nat)
    requires BotOk(off, tick, restoring, m, w) && n in w.flights && w.flights[n].phase.Answered?
    ensures var (t, now) := Recorded(off, m, w.flights[n].deaf, w.flights[n].phase.ok);
            BotOk(off, tick + 1, restoring, t, Settled(w, tick, n, now))
  {
  }

  lemma NotedOk(off: bool, tick: nat, restoring: bool, m: Member, w: World, n: nat)
    requires BotOk(off, tick, restoring, m, w) && n in w.flights && w.flights[n].phase.Noting?
    ensures BotOk(off, tick, restoring, m, w.(flights := w.flights - {n}))
  {
  }

  lemma StoppedOk(off: bool, tick: nat, restoring: bool, m: Member, w: World)
    requires BotOk(off, tick, restoring, m, w)
    ensures BotOk(true, tick, restoring, m.(timer := false), w)
  {
  }

  lemma LaterOk(off: bool, tick: nat, restoring: bool, m: Member, w: World)
    requires BotOk(off, tick, restoring, m, w)
    ensures BotOk(off, tick + 1, restoring, m, w)
    ensures BotOk(off, tick, true, m, w)
  {
  }

  lemma UndeafenedOk(off: bool, tick: nat, m: Member, w: World, kept: bool)
    requires BotOk(off, tick, true, m, w)
    ensures BotOk(off, tick, true, m, w.(discord := w.discord && kept))
  {
  }

  // ---------------------------------------------------------------------------
  // The invariant of every run

  predicate BeforeRestoring(s: Sys) {
    s.close in {Open, Waiting, Passed(true), Passed(false)}
  }

  ghost predicate Inv(s: Sys) {
    && s.worlds.Keys == s.core.members.Keys
    && (s.core.closed <==> s.close != Open)
    && forall b :: b in s.worlds ==> BotOk(s.core.Off(), s.tick, !BeforeRestoring(s), s.core.members[b], s.worlds[b])
  }

  lemma NextKeepsInv(s: Sys, e: Event)
    requires Inv(s)
    ensures Inv(Next(s, e))
  {
    hide BotOk, Observed, Recorded, Seen, Told, Settled, Launched;
    var t := Next(s, e);
    forall b | b in t.worlds
      ensures b in t.core.members && BotOk(t.core.Off(), t.tick, !BeforeRestoring(t), t.core.members[b], t.worlds[b])
    {
      if b in s.worlds {
        NextKeepsBot(s, e, b);
      } else {
        NewBotOk(s, e, b);
      }
    }
  }

  lemma NewBotOk(s: Sys, e: Event, b: Id)
    requires Inv(s) && b !in s.worlds && b in Next(s, e).worlds
    ensures var t := Next(s, e);
            b in t.core.members && BotOk(t.core.Off(), t.tick, !BeforeRestoring(t), t.core.members[b], t.worlds[b])
  {
  }

  lemma InvKeys(s: Sys)
    requires Inv(s)
    ensures s.worlds.Keys == s.core.members.Keys
  {
  }

  predicate BotHolds(s: Sys, b: Id) {
    b in s.core.members && b in s.worlds
    && BotOk(s.core.Off(), s.tick, !BeforeRestoring(s), s.core.members[b], s.worlds[b])
  }

  lemma InvBot(s: Sys, b: Id)
    requires Inv(s) && b in s.worlds
    ensures BotHolds(s, b)
  {
  }

  lemma NextKeepsBot(s: Sys, e: Event, b: Id)
    requires Inv(s) && b in s.worlds
    ensures BotHolds(Next(s, e), b)
  {
    hide BotHolds, Next, Inv;
    InvBot(s, b);
    InvKeys(s);
    match e
    case Observe(capturing) => ObserveKeepsBot(s, capturing, b);
    case TimerFires(bot) => TimerKeepsBot(s, bot, b);
    case Enter(bot, n) => EnterKeepsBot(s, bot, n, b);
    case Answer(bot, n, ok, permission) => AnswerKeepsBot(s, bot, n, ok, permission, b);
    case Record(bot, n) => RecordKeepsBot(s, bot, n, b);
    case Note(bot, n) => NoteKeepsBot(s, bot, n, b);
    case Register(_, _) => RestKeepsBot(s, e, b);
    case JoinError(_) => RestKeepsBot(s, e, b);
    case CloseBegins => RestKeepsBot(s, e, b);
    case _ => ClosingKeepsBot(s, e, b);
  }

  lemma ObserveKeepsBot(s: Sys, capturing: map<Id, bool>, b: Id)
    requires s.worlds.Keys == s.core.members.Keys && BotHolds(s, b)
    ensures BotHolds(Next(s, Observe(capturing)), b)
  {
    hide BotOk, Observed, Seen;
    if s.core.Off() {
      LaterOk(true, s.tick, !BeforeRestoring(s), s.core.members[b], s.worlds[b]);
    } else {
      ObservedOk(s.tick, !BeforeRestoring(s), s.core.members[b], s.worlds[b], !Capturing(capturing, b));
    }
  }

  lemma TimerKeepsBot(s: Sys, bot: Id, b: Id)
    requires s.worlds.Keys == s.core.members.Keys && BotHolds(s, b)
    ensures BotHolds(Next(s, TimerFires(bot)), b)
  {
    hide BotOk, Launched;
    var (off, restoring, m, w) := (s.core.Off(), !BeforeRestoring(s), s.core.members[b], s.worlds[b]);
    if bot == b && !off && !m.inFlight && m.timer {
      TimerIsWanted(s, b);
      TimedOk(s.tick, restoring, m, w);
    } else {
      LaterOk(off, s.tick, restoring, m, w);
    }
  }

  /** A live timer always has something to do. */
  lemma TimerIsWanted(s: Sys, b: Id)
    requires BotHolds(s, b) && s.core.members[b].timer
    ensures s.core.members[b].want != s.core.members[b].deaf
  {
  }

  lemma EnterKeepsBot(s: Sys, bot: Id, n: nat, b: Id)
    requires BotHolds(s, b)
    ensures BotHolds(Next(s, Enter(bot, n)), b)
  {
    hide BotOk;
    var (off, restoring, m, w) := (s.core.Off(), !BeforeRestoring(s), s.core.members[b], s.worlds[b]);
    LaterOk(off, s.tick, restoring, m, w);
    if bot == b && InPhase(s, b, n) && w.flights[n].phase == Launching {
      EnteredOk(off, s.tick, restoring, m, w, n);
    }
  }

  lemma AnswerKeepsBot(s: Sys, bot: Id, n: nat, ok: bool, permission: bool, b: Id)
    requires BotHolds(s, b)
    ensures BotHolds(Next(s, Answer(bot, n, ok, permission)), b)
  {
    hide BotOk, Told;
    var (off, restoring, m, w) := (s.core.Off(), !BeforeRestoring(s), s.core.members[b], s.worlds[b]);
    LaterOk(off, s.tick, restoring, m, w);
    if bot == b && InPhase(s, b, n) && w.flights[n].phase == Counted {
      ToldOk(off, s.tick, restoring, m, w, n, ok, permission);
    }
  }

  lemma RecordKeepsBot(s: Sys, bot: Id, n: nat, b: Id)
    requires s.worlds.Keys == s.core.members.Keys && BotHolds(s, b)
    ensures BotHolds(Next(s, Record(bot, n)), b)
  {
    hide BotOk, Recorded, Settled;
    var (off, restoring, m, w) := (s.core.Off(), !BeforeRestoring(s), s.core.members[b], s.worlds[b]);
    LaterOk(off, s.tick, restoring, m, w);
    if bot == b && InPhase(s, b, n) && w.flights[n].phase.Answered? {
      RecordedOk(off, s.tick, restoring, m, w, n);
    }
  }

  lemma NoteKeepsBot(s: Sys, bot: Id, n: nat, b: Id)
    requires BotHolds(s, b)
    ensures BotHolds(Next(s, Note(bot, n)), b)
  {
    hide BotOk;
    var (off, restoring, m, w) := (s.core.Off(), !BeforeRestoring(s), s.core.members[b], s.worlds[b]);
    LaterOk(off, s.tick, restoring, m, w);
    StoppedOk(off, s.tick + 1, restoring, m, w);
    if bot == b && InPhase(s, b, n) && w.flights[n].phase.Noting? {
      NotedOk(off, s.tick + 1, restoring, m, w, n);
      StoppedOk(off, s.tick + 1, restoring, m, w.(flights := w.flights - {n}));
    }
  }

  /** Registering another bot, a permission error on joining, and closing. */
  lemma RestKeepsBot(s: Sys, e: Event, b: Id)
    requires Inv(s) && BotHolds(s, b) && (e.Register? || e.JoinError? || e.CloseBegins?)
    ensures BotHolds(Next(s, e), b)
  {
    hide BotOk;
    var (off, restoring, m, w) := (s.core.Off(), !BeforeRestoring(s), s.core.members[b], s.worlds[b]);
    LaterOk(off, s.tick, restoring, m, w);
    StoppedOk(off, s.tick + 1, restoring, m, w);
  }

  lemma ClosingKeepsBot(s: Sys, e: Event, b: Id)
    requires BotHolds(s, b) && (e.WaitEnds? || e.WaitTimesOut? || e.Snapshot? || e.Restore? || e.CloseReturns?)
    ensures BotHolds(Next(s, e), b)
  {
    hide BotOk;
    var (off, restoring, m, w) := (s.core.Off(), !BeforeRestoring(s), s.core.members[b], s.worlds[b]);
    LaterOk(off, s.tick, restoring, m, w);
    LaterOk(off, s.tick + 1, restoring, m, w);
    if e.Restore? {
      UndeafenedOk(off, s.tick + 1, m, w, !e.ok);
    }
  }

  lemma {:induction false} RunKeepsInv(s: Sys, es: seq<Event>)
    requires Inv(s)
    ensures Inv(Run(s, es))
  {
    if es != [] {
      RunKeepsInv(s, es[..|es| - 1]);
      NextKeepsInv(Run(s, es[..|es| - 1]), es[|es| - 1]);
    }
  }

  lemma InitInv()
    ensures Inv(INIT)
  {
  }

  // ---------------------------------------------------------------------------
  // What every reachable state satisfies

  /** No lost wakeup: unless the session is over or refused, a bot not in its
      wanted state has a PATCH in flight, a timer, or no budget left; and never
      a PATCH and a timer at once. */
  lemma {:induction false} NoLostWakeup(es: seq<Event>, b: Id)
    requires b in Run(INIT, es).core.members
    ensures var s := Run(INIT, es);
            var m := s.core.members[b];
            && (!s.core.Off() && m.want != m.deaf ==> m.inFlight || m.timer || m.failures == RETRY_LIMIT)
            && !(m.inFlight && m.timer)
            && (s.core.Off() ==> !m.timer)
  {
    RunKeepsInv(INIT, es);
  }

  /** At most one PATCH of a bot is between its start and its recording, and one
      is exactly while the bot is marked in flight. */
  lemma {:induction false} OnePatchInFlight(es: seq<Event>, b: Id)
    requires b in Run(INIT, es).worlds
    ensures var s := Run(INIT, es);
            var live := set n | n in s.worlds[b].flights && Active(s.worlds[b].flights[n]);
            b in s.core.members && |live| == if s.core.members[b].inFlight then 1 else 0
  {
    RunKeepsInv(INIT, es);
    var s := Run(INIT, es);
    var w := s.worlds[b];
    var live := set n | n in w.flights && Active(w.flights[n]);
    assert live == if s.core.members[b].inFlight then {w.last} else {};
  }

  /** The controller's confirmed state is Discord's flag whenever nothing is in
      flight, up to the moment `Close` starts restoring. */
  lemma {:induction false} ConfirmedIsDiscord(es: seq<Event>, b: Id)
    requires b in Run(INIT, es).worlds
    ensures var s := Run(INIT, es);
            b in s.core.members
            && (BeforeRestoring(s) && !s.core.members[b].inFlight ==> s.worlds[b].discord == s.core.members[b].deaf)
  {
    RunKeepsInv(INIT, es);
  }

  /** This step started a PATCH for `b`. */
  predicate Starts(s: Sys, e: Event, b: Id) {
    var t := Next(s, e);
    b in t.worlds && s.tick in t.worlds[b].flights
  }

  lemma ObserveStarts(s: Sys, capturing: map<Id, bool>, b: Id)
    requires Inv(s) && b in s.worlds
    ensures var (m, t) := (s.core.members[b], Next(s, Observe(capturing)));
            var want := !Capturing(capturing, b);
            && (Starts(s, Observe(capturing), b) <==> !s.core.Off() && !want && m.deaf && !m.inFlight && !Retrying(m, want))
            && (Starts(s, Observe(capturing), b) ==> !t.worlds[b].flights[s.tick].deaf)
            && t.worlds[b].issued == if s.core.Off() then s.worlds[b].issued
                                     else if Starts(s, Observe(capturing), b) then 1 else 0
  {
  }

  lemma RecordStarts(s: Sys, bot: Id, n: nat, b: Id)
    requires Inv(s) && b in s.worlds
    ensures var (e, t) := (Record(bot, n), Next(s, Record(bot, n)));
            && (Starts(s, e, b) ==> bot == b && InPhase(s, b, n) && s.worlds[b].flights[n].phase.Answered?)
            && (Starts(s, e, b) ==> s.worlds[b].flights[n].phase.ok && !t.worlds[b].flights[s.tick].deaf)
            && t.worlds[b].issued == s.worlds[b].issued + if Starts(s, e, b) then 1 else 0
  {
    assert BotOk(s.core.Off(), s.tick, !BeforeRestoring(s), s.core.members[b], s.worlds[b]);
  }

  predicate DeafenAccepted(a: Apply) {
    a.deaf && a.phase.Answered? && a.phase.ok
  }

  /** Recording starts a PATCH exactly when a deafen was accepted and the bot is
      meanwhile wanted undeafened: the undeafen goes out at once. */
  lemma RecordUndeafensAtOnce(s: Sys, bot: Id, n: nat, b: Id)
    requires Inv(s) && b in s.worlds
    ensures b in s.core.members
    ensures var (e, t) := (Record(bot, n), Next(s, Record(bot, n)));
            && (Starts(s, e, b) <==>
                  bot == b && InPhase(s, b, n) && DeafenAccepted(s.worlds[b].flights[n])
                  && !s.core.members[b].want && !s.core.Off())
            && (Starts(s, e, b) ==> t.worlds[b].flights[s.tick] == Apply(false, Counted))
  {
    assert BotOk(s.core.Off(), s.tick, !BeforeRestoring(s), s.core.members[b], s.worlds[b]);
  }

  lemma TimerStarts(s: Sys, bot: Id, b: Id)
    requires Inv(s) && b in s.worlds
    ensures var (e, t) := (TimerFires(bot), Next(s, TimerFires(bot)));
            && (Starts(s, e, b) <==> bot == b && b in s.core.members && s.core.members[b].timer)
            && (Starts(s, e, b) ==> t.worlds[b].flights[s.tick] == Apply(s.core.members[b].want, Launching))
            && t.worlds[b].issued == s.worlds[b].issued + if Starts(s, e, b) then 1 else 0
  {
    assert BotOk(s.core.Off(), s.tick, !BeforeRestoring(s), s.core.members[b], s.worlds[b]);
  }

  lemma OthersStartNothing(s: Sys, e: Event, b: Id)
    requires Inv(s) && b in Next(s, e).worlds && !e.Observe? && !e.Record? && !e.TimerFires?
    ensures !Starts(s, e, b)
    ensures b in s.worlds ==> Next(s, e).worlds[b].issued == s.worlds[b].issued
  {
    if b in s.worlds {
      assert BotOk(s.core.Off(), s.tick, !BeforeRestoring(s), s.core.members[b], s.worlds[b]);
    }
  }

  /** A deafen starts from a timer only; every other start is an undeafen. A
      state Discord has refused is not asked for again without a timer, whether
      by a re-request or by the answer itself. */
  lemma WhatStartsAPatch(s: Sys, e: Event, b: Id)
    requires Inv(s) && Starts(s, e, b)
    ensures b in s.core.members
    ensures Next(s, e).worlds[b].flights[s.tick].deaf ==> e == TimerFires(b)
    ensures e.Observe? ==> !Retrying(s.core.members[b], !Capturing(e.capturing, b))
    ensures e.Record? ==> e.bot == b && InPhase(s, b, e.n) && s.worlds[b].flights[e.n].phase.Answered?
                          && s.worlds[b].flights[e.n].phase.ok
    ensures e.TimerFires? ==> e.bot == b && s.core.members[b].timer
    ensures e.Observe? || e.Record? || e.TimerFires?
  {
    hide Inv, Observed, Recorded, TimerCore, RecordCore, ObserveCore, BotOk, OnObserve, OnTimer, OnRecord, Retrying;
    if b in s.worlds {
      assert b in s.core.members by { InvKeys(s); }
      match e
      case Observe(capturing) => ObserveStarts(s, capturing, b);
      case Record(bot, n) => RecordStarts(s, bot, n, b);
      case TimerFires(bot) => TimerStarts(s, bot, b);
      case _ => OthersStartNothing(s, e, b);
    } else {
      NewBotStartsNothing(s, e, b);
    }
  }

  lemma NewBotStartsNothing(s: Sys, e: Event, b: Id)
    requires Inv(s) && b !in s.worlds
    ensures !Starts(s, e, b)
  {
  }

  /** This step records Discord's answer for `b`. */
  predicate Records(s: Sys, e: Event, b: Id, ok: bool) {
    e.Record? && e.bot == b && InPhase(s, b, e.n) && s.worlds[b].flights[e.n].phase.Answered?
    && s.worlds[b].flights[e.n].phase.ok == ok
  }

  /** This step asks for the other state. */
  predicate TurnsRound(s: Sys, e: Event, b: Id) {
    e.Observe? && !s.core.Off() && b in s.core.members && s.core.members[b].want == Capturing(e.capturing, b)
  }

  /** Discord's last answer for `b` was a refusal, and the same state has been asked
      for ever since. */
  predicate RefusalStands(es: seq<Event>, b: Id) {
    if es == [] then false
    else
      var (s, e) := (Run(INIT, es[..|es| - 1]), es[|es| - 1]);
      Records(s, e, b, false) || (!Records(s, e, b, true) && !TurnsRound(s, e, b) && RefusalStands(es[..|es| - 1], b))
  }

  lemma ObservedRejected(m: Member, want: bool)
    ensures Observed(m, want).0.rejected <==> m.rejected && want == m.want
  {
  }

  lemma RecordedRejected(off: bool, m: Member, deaf: bool, ok: bool)
    ensures Recorded(off, m, deaf, ok).0.rejected <==> !ok
  {
  }

  lemma OneRejected(s: Sys, e: Event, b: Id)
    requires Inv(s) && b in Next(s, e).core.members
    ensures Next(s, e).core.members[b].rejected
            <==> Records(s, e, b, false)
                 || (!Records(s, e, b, true) && !TurnsRound(s, e, b) && b in s.core.members && s.core.members[b].rejected)
  {
    hide BotOk, Observed, Recorded, Launched, Seen, Told, Settled;
    InvKeys(s);
    match e {
      case Observe(capturing) =>
        if !s.core.Off() { ObservedRejected(s.core.members[b], !Capturing(capturing, b)); }
      case Record(bot, n) =>
        if Records(s, e, b, true) || Records(s, e, b, false) {
          var a := s.worlds[b].flights[n];
          RecordedRejected(s.core.Off(), s.core.members[b], a.deaf, a.phase.ok);
        }
      case _ =>
    }
  }

  lemma {:induction false} RejectedIsRefused(es: seq<Event>, b: Id)
    ensures b in Run(INIT, es).core.members ==> (Run(INIT, es).core.members[b].rejected <==> RefusalStands(es, b))
    ensures b !in Run(INIT, es).core.members ==> !RefusalStands(es, b)
  {
    hide Inv, Next, Records, TurnsRound;
    if es != [] {
      var (s, e) := (Run(INIT, es[..|es| - 1]), es[|es| - 1]);
      RejectedIsRefused(es[..|es| - 1], b);
      InitInv();
      RunKeepsInv(INIT, es[..|es| - 1]);
      if b in Next(s, e).core.members { OneRejected(s, e, b); } else { UnknownIsNotRefused(s, e, b); }
    }
  }

  lemma UnknownIsNotRefused(s: Sys, e: Event, b: Id)
    requires Inv(s) && b !in Next(s, e).core.members
    ensures !Records(s, e, b, false) && b !in s.core.members
  {
    hide BotOk, Launched, Seen, Told, Settled;
  }

  /** The refusals recorded for `b` since the last observation that counted or the
      last accepted PATCH. */
  function Refusals(es: seq<Event>, b: Id): nat {
    if es == [] then 0
    else
      var (s, e) := (Run(INIT, es[..|es| - 1]), es[|es| - 1]);
      if Records(s, e, b, true) || (e.Observe? && !s.core.Off()) then 0
      else Refusals(es[..|es| - 1], b) + if Records(s, e, b, false) then 1 else 0
  }

  /** The budget is spent by refusals only; a bot that is where it should be, with
      nothing in flight, may have it back early. */
  predicate CountsRefusals(m: Member, refusals: nat) {
    m.failures == refusals || (m.failures == 0 && !m.inFlight && m.want == m.deaf)
  }

  lemma RecordedCounts(off: bool, m: Member, deaf: bool, ok: bool, refusals: nat)
    requires CountsRefusals(m, refusals) && m.inFlight
    ensures CountsRefusals(Recorded(off, m, deaf, ok).0, if ok then 0 else refusals + 1)
  {
  }

  lemma ObservedCounts(m: Member, want: bool)
    ensures CountsRefusals(Observed(m, want).0, 0)
  {
  }

  lemma OneMoreRefusal(s: Sys, e: Event, b: Id, refusals: nat)
    requires Inv(s) && b in Next(s, e).core.members
    requires if b in s.core.members then CountsRefusals(s.core.members[b], refusals) else refusals == 0
    ensures CountsRefusals(Next(s, e).core.members[b],
                           if Records(s, e, b, true) || (e.Observe? && !s.core.Off()) then 0
                           else refusals + if Records(s, e, b, false) then 1 else 0)
  {
    hide Inv, BotOk, Observed, Recorded, Launched, Seen, Told, Settled;
    InvKeys(s);
    match e {
      case Observe(capturing) =>
        if !s.core.Off() { ObservedCounts(s.core.members[b], !Capturing(capturing, b)); }
      case Record(bot, n) =>
        if Records(s, e, b, true) || Records(s, e, b, false) {
          InvBot(s, b);
          AnsweredIsInFlight(s, b, n);
          var a := s.worlds[b].flights[n];
          RecordedCounts(s.core.Off(), s.core.members[b], a.deaf, a.phase.ok, refusals);
        }
      case _ =>
    }
  }

  lemma AnsweredIsInFlight(s: Sys, b: Id, n: nat)
    requires BotHolds(s, b) && InPhase(s, b, n) && s.worlds[b].flights[n].phase.Answered?
    ensures s.core.members[b].inFlight
  {
  }

  /** Over every run a bot's failures are the refusals since it was last observed or
      accepted. */
  lemma {:induction false} FailuresAreRefusals(es: seq<Event>, b: Id)
    ensures if b in Run(INIT, es).core.members then CountsRefusals(Run(INIT, es).core.members[b], Refusals(es, b))
            else Refusals(es, b) == 0
  {
    hide Inv, Next, Records, CountsRefusals;
    if es != [] {
      var (s, e) := (Run(INIT, es[..|es| - 1]), es[|es| - 1]);
      FailuresAreRefusals(es[..|es| - 1], b);
      InitInv();
      RunKeepsInv(INIT, es[..|es| - 1]);
      if b in Next(s, e).core.members {
        OneMoreRefusal(s, e, b, Refusals(es[..|es| - 1], b));
      } else {
        UnknownIsNotRefused(s, e, b);
      }
    }
  }

  /** Over every run, an observation undeafens at once exactly a deafened bot whose
      channel speaks and that nothing is in flight for, unless the session is off
      or Discord has refused just that since it was first asked for. */
  lemma {:induction false} UndeafenedAtOnceUnlessRefused(es: seq<Event>, capturing: map<Id, bool>, b: Id)
    requires b in Run(INIT, es).worlds
    ensures b in Run(INIT, es).core.members
    ensures var (s, m) := (Run(INIT, es), Run(INIT, es).core.members[b]);
            Starts(s, Observe(capturing), b) <==>
              !s.core.Off() && b in capturing && capturing[b] && m.deaf && !m.inFlight && (m.want || !RefusalStands(es, b))
  {
    hide Inv, Starts, RefusalStands;
    InitInv();
    RunKeepsInv(INIT, es);
    InvKeys(Run(INIT, es));
    ObserveStarts(Run(INIT, es), capturing, b);
    RejectedIsRefused(es, b);
  }

  /** How many PATCHes for `b` a run starts. */
  function StartsIn(s: Sys, es: seq<Event>, b: Id): nat {
    if es == [] then 0
    else StartsIn(s, es[..|es| - 1], b) + if Starts(Run(s, es[..|es| - 1]), es[|es| - 1], b) then 1 else 0
  }

  lemma {:induction false} StartsAreIssued(s: Sys, es: seq<Event>, b: Id)
    requires Inv(s) && b in s.worlds
    requires forall e :: e in es ==> !e.Observe?
    ensures Inv(Run(s, es)) && b in Run(s, es).worlds
    ensures Run(s, es).worlds[b].issued == s.worlds[b].issued + StartsIn(s, es, b)
  {
    hide Inv, BotOk, Next, Starts;
    if es != [] {
      var (front, e) := (es[..|es| - 1], es[|es| - 1]);
      StartsAreIssued(s, front, b);
      OneStartIsIssued(Run(s, front), e, b);
    }
  }

  lemma OneStartIsIssued(s: Sys, e: Event, b: Id)
    requires Inv(s) && b in s.worlds && !e.Observe?
    ensures Inv(Next(s, e)) && b in Next(s, e).worlds
    ensures Next(s, e).worlds[b].issued == s.worlds[b].issued + if Starts(s, e, b) then 1 else 0
  {
    hide Inv, BotOk, Starts, Effect;
    NextKeepsInv(s, e);
    assert b in Next(s, e).worlds by { WorldsStay(s, e, b); }
    match e
    case Record(bot, n) => RecordStarts(s, bot, n, b);
    case TimerFires(bot) => TimerStarts(s, bot, b);
    case _ => OthersStartNothing(s, e, b);
  }

  lemma WorldsStay(s: Sys, e: Event, b: Id)
    requires Inv(s) && b in s.worlds
    ensures b in Next(s, e).worlds
  {
    hide BotOk, Observed, Recorded, TimerCore, RecordCore;
  }

  lemma IssuedIsBounded(s: Sys, b: Id)
    requires Inv(s) && b in s.worlds
    ensures s.worlds[b].issued <= RETRY_LIMIT
  {
    assert BotOk(s.core.Off(), s.tick, !BeforeRestoring(s), s.core.members[b], s.worlds[b]);
  }

  /** From an observation up to the next one, a bot gets at most three PATCHes. */
  lemma {:induction false} AtMostThreeBetweenObserves(before: seq<Event>, capturing: map<Id, bool>, after: seq<Event>, b: Id)
    requires forall e :: e in after ==> !e.Observe?
    requires b in Run(INIT, before).worlds
    ensures var s := Run(INIT, before);
            (if Starts(s, Observe(capturing), b) then 1 else 0) + StartsIn(Next(s, Observe(capturing)), after, b) <= RETRY_LIMIT
  {
    hide Inv, BotOk, Starts, Effect;
    InitInv();
    RunKeepsInv(INIT, before);
    var s := Run(INIT, before);
    ObserveStarts(s, capturing, b);
    NextKeepsInv(s, Observe(capturing));
    WorldsStay(s, Observe(capturing), b);
    var t := Next(s, Observe(capturing));
    StartsAreIssued(t, after, b);
    IssuedIsBounded(Run(t, after), b);
  }

  /** Left alone, a bot ends in the state it was last asked for: with nothing in
      flight and no timer, it is there, or out of budget, which takes at least two
      PATCHes since then. */
  lemma {:induction false} SettledMeansWantedOrSpent(es: seq<Event>, b: Id)
    requires b in Run(INIT, es).worlds && BeforeRestoring(Run(INIT, es)) && !Run(INIT, es).core.Off()
    ensures b in Run(INIT, es).core.members
    ensures var (m, w) := (Run(INIT, es).core.members[b], Run(INIT, es).worlds[b]);
            !m.inFlight && !m.timer ==> w.discord == m.want || (m.failures == RETRY_LIMIT && w.issued + 1 >= RETRY_LIMIT)
  {
    RunKeepsInv(INIT, es);
  }

  /** After an observation every bot is wanted in the observed state, with its
      whole budget, and unless it is there a PATCH is in flight or a timer runs. */
  lemma {:induction false} ObservationIsHonoured(es: seq<Event>, capturing: map<Id, bool>, b: Id)
    requires b in Run(INIT, es).worlds && !Run(INIT, es).core.Off()
    ensures var t := Next(Run(INIT, es), Observe(capturing));
            && b in t.core.members
            && t.core.members[b].want == !Capturing(capturing, b)
            && t.core.members[b].failures == 0
            && (t.core.members[b].want != t.core.members[b].deaf ==> t.core.members[b].inFlight || t.core.members[b].timer)
  {
    RunKeepsInv(INIT, es);
    InvKeys(Run(INIT, es));
  }

  // ---------------------------------------------------------------------------
  // A permission refusal

  /** This step notes that Discord refused a permission. */
  predicate NotesRefusal(s: Sys, e: Event) {
    || e == JoinError(true)
    || (e.Note? && InPhase(s, e.bot, e.n) && s.worlds[e.bot].flights[e.n].phase == Noting(true))
  }

  /** No bot has a timer, and no step there is starts a PATCH. */
  ghost predicate Stopped(s: Sys) {
    && (forall b :: b in s.core.members ==> !s.core.members[b].timer)
    && (forall e, b :: !Starts(s, e, b))
  }

  /** Goroutine `n` has the refusal still to note. */
  predicate ToNote(s: Sys, b: Id, n: nat) {
    InPhase(s, b, n) && s.worlds[b].flights[n].phase in {Answered(false, true), Noting(true)}
  }

  lemma NextKeepsDisabled(s: Sys, e: Event)
    requires s.core.disabled || NotesRefusal(s, e)
    ensures Next(s, e).core.disabled
  {
    hide Observed, Recorded;
  }

  lemma {:induction false} RunKeepsDisabled(s: Sys, es: seq<Event>)
    requires s.core.disabled
    ensures Run(s, es).core.disabled
  {
    hide Next;
    if es != [] {
      RunKeepsDisabled(s, es[..|es| - 1]);
      NextKeepsDisabled(Run(s, es[..|es| - 1]), es[|es| - 1]);
    }
  }

  lemma DisabledIsStopped(s: Sys)
    requires Inv(s) && s.core.disabled
    ensures Stopped(s)
  {
    hide Starts, BotOk, Next;
    forall b | b in s.core.members
      ensures !s.core.members[b].timer
    {
      InvKeys(s);
      InvBot(s, b);
      OffHasNoTimer(s, b);
    }
    forall e, b
      ensures !Starts(s, e, b)
    {
      DisabledStartsNothing(s, e, b);
    }
  }

  lemma OffHasNoTimer(s: Sys, b: Id)
    requires BotHolds(s, b) && s.core.Off()
    ensures !s.core.members[b].timer
  {
  }

  lemma DisabledStartsNothing(s: Sys, e: Event, b: Id)
    requires Inv(s) && s.core.disabled
    ensures !Starts(s, e, b)
  {
    hide Inv, Starts, BotOk, Next, Observed, Recorded, TimerCore, RecordCore, ObserveCore;
    if Starts(s, e, b) {
      if b !in s.worlds { NewBotStartsNothing(s, e, b); }
      WhatStartsAPatch(s, e, b);
      match e {
        case Observe(capturing) => ObserveStarts(s, capturing, b);
        case Record(bot, n) => RecordUndeafensAtOnce(s, bot, n, b);
        case TimerFires(_) =>
          InvBot(s, b);
          OffHasNoTimer(s, b);
        case _ =>
      }
    }
  }

  /** Once a permission refusal has been noted, for the rest of the run no bot has
      a timer and nothing starts a PATCH any more; `Close` still undeafens. */
  lemma {:induction false} RefusalStopsAll(before: seq<Event>, e: Event, after: seq<Event>)
    requires NotesRefusal(Run(INIT, before), e)
    ensures Stopped(Run(Next(Run(INIT, before), e), after))
  {
    hide Inv, Run, Next, NotesRefusal, Stopped;
    var s := Run(INIT, before);
    InitInv();
    RunKeepsInv(INIT, before);
    NextKeepsInv(s, e);
    RunKeepsInv(Next(s, e), after);
    NextKeepsDisabled(s, e);
    RunKeepsDisabled(Next(s, e), after);
    DisabledIsStopped(Run(Next(s, e), after));
  }

  lemma NextKeepsToNote(s: Sys, e: Event, b: Id, n: nat)
    requires Inv(s) && ToNote(s, b, n)
    ensures ToNote(Next(s, e), b, n) || NotesRefusal(s, e)
  {
    hide Inv, Observed, BotOk, OnRecord, ObserveCore, TimerCore;
    InvKeys(s);
    assert n < s.tick by { FlightsAreOld(s, b, n); }
    match e {
      case Record(bot, m) =>
        if bot == b { RecordKeepsToNote(s, b, m, n); } else { RecordLeavesOthers(s, bot, m, b); }
      case _ =>
    }
  }

  lemma FlightsAreOld(s: Sys, b: Id, n: nat)
    requires Inv(s) && InPhase(s, b, n)
    ensures n < s.tick
  {
    hide MemberOk, BudgetOk, FlagOk;
    assert BotOk(s.core.Off(), s.tick, !BeforeRestoring(s), s.core.members[b], s.worlds[b]);
  }

  lemma RecordLeavesOthers(s: Sys, bot: Id, m: nat, b: Id)
    requires b in s.worlds && bot != b
    ensures b in Next(s, Record(bot, m)).worlds && Next(s, Record(bot, m)).worlds[b] == s.worlds[b]
  {
    hide RecordCore, Settled;
  }

  lemma RecordKeepsToNote(s: Sys, b: Id, m: nat, n: nat)
    requires ToNote(s, b, n) && n < s.tick
    ensures ToNote(Next(s, Record(b, m)), b, n)
  {
  }

  /** A refusal Discord gives is not forgotten: later in any run its goroutine
      still has it to note, or everything has stopped. */
  lemma {:induction false} RefusalIsNoted(before: seq<Event>, b: Id, n: nat, after: seq<Event>)
    requires InPhase(Run(INIT, before), b, n) && Run(INIT, before).worlds[b].flights[n].phase == Counted
    ensures var t := Run(Next(Run(INIT, before), Answer(b, n, false, true)), after);
            ToNote(t, b, n) || Stopped(t)
  {
    hide Inv, Stopped, Next, ToNote;
    var s := Next(Run(INIT, before), Answer(b, n, false, true));
    InitInv();
    RunKeepsInv(INIT, before);
    NextKeepsInv(Run(INIT, before), Answer(b, n, false, true));
    assert ToNote(s, b, n) by { AnsweredToNote(Run(INIT, before), b, n); }
    CarriedOrDisabled(s, b, n, after);
    RunKeepsInv(s, after);
    if Run(s, after).core.disabled {
      DisabledIsStopped(Run(s, after));
    }
  }

  lemma AnsweredToNote(s: Sys, b: Id, n: nat)
    requires InPhase(s, b, n) && s.worlds[b].flights[n].phase == Counted
    ensures ToNote(Next(s, Answer(b, n, false, true)), b, n)
  {
  }

  lemma {:induction false} CarriedOrDisabled(s: Sys, b: Id, n: nat, es: seq<Event>)
    requires Inv(s) && ToNote(s, b, n)
    ensures ToNote(Run(s, es), b, n) || Run(s, es).core.disabled
  {
    hide Inv, Next, ToNote, NotesRefusal;
    if es != [] {
      var (t, e) := (Run(s, es[..|es| - 1]), es[|es| - 1]);
      CarriedOrDisabled(s, b, n, es[..|es| - 1]);
      RunKeepsInv(s, es[..|es| - 1]);
      if ToNote(t, b, n) { NextKeepsToNote(t, e, b, n); }
      if t.core.disabled || NotesRefusal(t, e) { NextKeepsDisabled(t, e); }
    }
  }

  // ---------------------------------------------------------------------------
  // Close

  predicate NoneDeaf(s: Sys) {
    forall b :: b in s.worlds ==> !s.worlds[b].discord
  }

  /** A deafen that a timer has started but that the wait group does not count yet. */
  predicate UncountedDeafen(s: Sys, b: Id, n: nat) {
    InPhase(s, b, n) && s.worlds[b].flights[n] == Apply(true, Launching)
  }

  predicate NoUncountedDeafen(s: Sys) {
    forall b, n :: b in s.worlds && n in s.worlds[b].flights ==> !UncountedDeafen(s, b, n)
  }

  /** Every continuation that returns from a clean `Close` has no bot deafened,
      then and ever after. */
  ghost predicate NeverStrands(s: Sys) {
    forall es :: Run(s, es).close == Done(true) ==> NoneDeaf(Run(s, es))
  }

  predicate OnlyUndeafens(w: World) {
    forall n :: n in w.flights && Active(w.flights[n]) ==> !w.flights[n].deaf
  }

  predicate RestoresOk(close: ClosePhase, b: Id, discord: bool) {
    match close
    case Restoring(left, clean) => clean && discord ==> b in left
    case Done(clean) => clean ==> !discord
    case _ => true
  }

  predicate QuietBot(s: Sys, b: Id) {
    b in s.worlds && OnlyUndeafens(s.worlds[b]) && RestoresOk(s.close, b, s.worlds[b].discord)
  }

  ghost predicate Quiet(s: Sys) {
    && s.close != Open && s.close != Waiting
    && forall b :: b in s.worlds ==> QuietBot(s, b)
  }

  /** Only an accepted answer moves the flag, and it clears it. */
  lemma AnswerKeepsQuiet(s: Sys, e: Event, b: Id)
    requires QuietBot(s, b) && (e.Enter? || e.Answer?)
    ensures QuietBot(Next(s, e), b)
  {
  }

  /** Once closed, recording starts nothing. */
  lemma RecordKeepsQuiet(s: Sys, e: Event, b: Id)
    requires QuietBot(s, b) && s.core.closed && (e.Record? || e.Note?)
    ensures QuietBot(Next(s, e), b)
  {
  }

  lemma RestoreKeepsQuiet(s: Sys, e: Event, b: Id)
    requires QuietBot(s, b) && BotHolds(s, b) && s.core.closed
    requires e.Snapshot? || e.Restore? || e.CloseReturns?
    ensures QuietBot(Next(s, e), b)
  {
    if e.Snapshot? && s.close.Passed? {
      PassedFlag(s, b);
    }
  }

  /** With no deafen under way, a flag that is set is confirmed. */
  lemma PassedFlag(s: Sys, b: Id)
    requires BotHolds(s, b) && OnlyUndeafens(s.worlds[b]) && s.close.Passed?
    ensures s.worlds[b].discord ==> s.core.members[b].deaf
  {
  }

  lemma RestKeepsQuiet(s: Sys, e: Event, b: Id)
    requires QuietBot(s, b) && s.core.closed && s.close != Open && s.close != Waiting
    requires e.Register? || e.Observe? || e.TimerFires? || e.JoinError? || e.CloseBegins? || e.WaitEnds? || e.WaitTimesOut?
    ensures QuietBot(Next(s, e), b)
  {
  }

  lemma NextKeepsQuietBot(s: Sys, e: Event, b: Id)
    requires Inv(s) && Quiet(s) && b in s.worlds
    ensures QuietBot(Next(s, e), b)
  {
    hide QuietBot, BotHolds, Next;
    InvBot(s, b);
    match e
    case Enter(_, _) => AnswerKeepsQuiet(s, e, b);
    case Answer(_, _, _, _) => AnswerKeepsQuiet(s, e, b);
    case Record(_, _) => RecordKeepsQuiet(s, e, b);
    case Note(_, _) => RecordKeepsQuiet(s, e, b);
    case Snapshot => RestoreKeepsQuiet(s, e, b);
    case Restore(_, _) => RestoreKeepsQuiet(s, e, b);
    case CloseReturns => RestoreKeepsQuiet(s, e, b);
    case _ => RestKeepsQuiet(s, e, b);
  }

  lemma NextKeepsQuiet(s: Sys, e: Event)
    requires Inv(s) && Quiet(s)
    ensures Quiet(Next(s, e))
  {
    hide Inv, QuietBot, Observed, Recorded, TimerCore, RecordCore;
    var t := Next(s, e);
    assert t.worlds.Keys == s.worlds.Keys by { ClosedKeepsWorlds(s, e); }
    forall b | b in t.worlds
      ensures QuietBot(t, b)
    {
      NextKeepsQuietBot(s, e, b);
    }
  }

  lemma ClosedKeepsWorlds(s: Sys, e: Event)
    requires Inv(s) && s.close != Open
    ensures Next(s, e).worlds.Keys == s.worlds.Keys
  {
    hide BotOk, Observed, Recorded, TimerCore, RecordCore;
  }

  lemma {:induction false} RunKeepsQuiet(s: Sys, es: seq<Event>)
    requires Inv(s) && Quiet(s)
    ensures Quiet(Run(s, es))
  {
    hide Inv, Quiet, Next;
    if es != [] {
      RunKeepsQuiet(s, es[..|es| - 1]);
      RunKeepsInv(s, es[..|es| - 1]);
      NextKeepsQuiet(Run(s, es[..|es| - 1]), es[|es| - 1]);
    }
  }

  /** `Close` strands nothing exactly when no deafen sits between its timer's
      unlock and its entry into the wait group at the moment the wait ends. */
  lemma {:induction false} CloseStrandsNothing(es: seq<Event>)
    requires Run(INIT, es).close == Waiting && Drained(Run(INIT, es))
    ensures NeverStrands(Next(Run(INIT, es), WaitEnds)) <==> NoUncountedDeafen(Run(INIT, es))
  {
    hide Inv, Quiet;
    InitInv();
    RunKeepsInv(INIT, es);
    var s := Run(INIT, es);
    var t := Next(s, WaitEnds);
    NextKeepsInv(s, WaitEnds);
    if NoUncountedDeafen(s) {
      DrainedIsQuiet(s);
      forall after | Run(t, after).close == Done(true)
        ensures NoneDeaf(Run(t, after))
      {
        RunKeepsQuiet(t, after);
        QuietDone(Run(t, after));
      }
    } else {
      var b, n :| b in s.worlds && n in s.worlds[b].flights && UncountedDeafen(s, b, n);
      var after := Stranding(t, b, n);
      assert Run(t, after).close == Done(true) && !NoneDeaf(Run(t, after));
    }
  }

  lemma DrainedIsQuiet(s: Sys)
    requires Inv(s) && s.close == Waiting && Drained(s) && NoUncountedDeafen(s)
    ensures Quiet(Next(s, WaitEnds))
  {
  }

  lemma QuietDone(s: Sys)
    requires Quiet(s) && s.close == Done(true)
    ensures NoneDeaf(s)
  {
  }

  lemma {:induction false} RunConcat(s: Sys, es: seq<Event>, more: seq<Event>)
    ensures Run(s, es + more) == Run(Run(s, es), more)
  {
    if more == [] {
      assert es + more == es;
    } else {
      RunConcat(s, es, more[..|more| - 1]);
      assert (es + more)[..|es + more| - 1] == es + more[..|more| - 1];
    }
  }

  /** Restores every bot left, changing nothing else. */
  lemma {:induction false} RestoreAll(s: Sys, b: Id) returns (es: seq<Event>)
    requires s.close.Restoring? && s.close.clean && s.close.left <= s.worlds.Keys && b in s.worlds
    ensures var t := Run(s, es);
            t.close == Restoring({}, true) && b in t.worlds && t.worlds[b].flights == s.worlds[b].flights
    decreases s.close.left
  {
    if s.close.left == {} {
      es := [];
    } else {
      var bot :| bot in s.close.left;
      var t := Next(s, Restore(bot, true));
      var rest := RestoreAll(t, b);
      es := [Restore(bot, true)] + rest;
      RunConcat(s, [Restore(bot, true)], rest);
      assert Run(s, [Restore(bot, true)]) == t;
    }
  }

  /** The run that strands: `Close` returns, then the deafen is sent and accepted. */
  lemma Stranding(s: Sys, b: Id, n: nat) returns (es: seq<Event>)
    requires Inv(s) && s.close == Passed(true) && UncountedDeafen(s, b, n)
    ensures Run(s, es).close == Done(true) && !NoneDeaf(Run(s, es))
  {
    hide Inv;
    InvKeys(s);
    var t := Next(s, Snapshot);
    var restores := RestoreAll(t, b);
    var u := Run(t, restores);
    var ending := [CloseReturns, Enter(b, n), Answer(b, n, true, false)];
    es := [Snapshot] + restores + ending;
    RunConcat(s, [Snapshot], restores);
    RunConcat(s, [Snapshot] + restores, ending);
    assert Run(s, [Snapshot]) == t;
    Ending(u, b, n);
  }

  lemma {:induction false} Ending(u: Sys, b: Id, n: nat)
    requires u.close == Restoring({}, true) && UncountedDeafen(u, b, n)
    ensures var v := Run(u, [CloseReturns, Enter(b, n), Answer(b, n, true, false)]);
            v.close == Done(true) && !NoneDeaf(v)
  {
    var ending := [CloseReturns, Enter(b, n), Answer(b, n, true, false)];
    assert ending[..2] == [CloseReturns, Enter(b, n)];
    assert ending[..2][..1] == [CloseReturns];
    assert ending[..2][..1][..0] == [];
    var x := Next(u, CloseReturns);
    var y := Next(x, Enter(b, n));
    var z := Next(y, Answer(b, n, true, false));
    assert Run(u, ending[..2][..1]) == x;
    assert Run(u, ending[..2]) == y;
    assert Run(u, ending) == z;
    assert b in z.worlds && z.worlds[b].discord;
  }

  /** The gap can be met from the start, with any bot: it joins undeafened,
      nobody speaks, its timer fires, and `Close` begins before the goroutine
      enters the wait group. */
  lemma GapIsReachable(b: Id)
    ensures var s := Run(INIT, [Register(b, false), Observe(map[]), TimerFires(b), CloseBegins]);
            s.close == Waiting && Drained(s) && !NoUncountedDeafen(s) && UncountedDeafen(s, b, 2)
  {
    FourSteps(INIT, Register(b, false), Observe(map[]), TimerFires(b), CloseBegins);
    FirstSteps(b);
    var s3 := Next(Next(Next(INIT, Register(b, false)), Observe(map[])), TimerFires(b));
    var s := Next(s3, CloseBegins);
    assert s.worlds == s3.worlds && b in s.worlds && 2 in s.worlds[b].flights;
    assert UncountedDeafen(s, b, 2);
  }

  lemma {:induction false} FourSteps(s: Sys, e1: Event, e2: Event, e3: Event, e4: Event)
    ensures Run(s, [e1, e2, e3, e4]) == Next(Next(Next(Next(s, e1), e2), e3), e4)
  {
    hide Next;
    var es := [e1, e2, e3, e4];
    assert es[..3] == [e1, e2, e3] && [e1, e2, e3][..2] == [e1, e2] && [e1, e2][..1] == [e1];
    OneStep(s, e1);
    assert Run(s, [e1, e2]) == Next(Next(s, e1), e2);
    assert Run(s, [e1, e2, e3]) == Next(Next(Next(s, e1), e2), e3);
  }

  lemma FirstSteps(b: Id)
    ensures var s3 := Next(Next(Next(INIT, Register(b, false)), Observe(map[])), TimerFires(b));
            s3.worlds == map[b := World(false, map[2 := Apply(true, Launching)], 2, 1, true)] && s3.close == Open
  {
    var s1 := Next(INIT, Register(b, false));
    assert s1 == Sys(Core(map[b := Member(false, false, false, false, 0, false)], false, false),
                     map[b := World(false, map[], 0, 0, false)], 1, Open);
    var s2 := Next(s1, Observe(map[]));
    assert Observed(s1.core.members[b], true) == (Member(false, true, false, true, 0, false), false);
    assert s2.core.members == map[b := Member(false, true, false, true, 0, false)];
    assert s2.worlds == map[b := World(false, map[], 0, 0, false)];
    var s3 := Next(s2, TimerFires(b));
    assert TimerCore(s2.core, b).1 == Patch(true);
  }

  /** So a run from the start ends with `Close` clean and the bot deafened. */
  lemma CloseCanStrand(b: Id) returns (es: seq<Event>)
    ensures Run(INIT, es).close == Done(true) && !NoneDeaf(Run(INIT, es))
  {
    hide Inv, Run, Drained, NoUncountedDeafen;
    var gap := [Register(b, false), Observe(map[]), TimerFires(b), CloseBegins];
    GapIsReachable(b);
    InitInv();
    RunKeepsInv(INIT, gap);
    var s := Run(INIT, gap);
    NextKeepsInv(s, WaitEnds);
    var rest := Stranding(Next(s, WaitEnds), b, 2);
    es := gap + ([WaitEnds] + rest);
    RunConcat(INIT, gap, [WaitEnds] + rest);
    RunConcat(s, [WaitEnds], rest);
    OneStep(s, WaitEnds);
  }

  lemma {:induction false} OneStep(s: Sys, e: Event)
    ensures Run(s, [e]) == Next(s, e)
  {
    assert [e][..0] == [];
  }
}
