/** The server-deafen controller of one session: the critical sections of its
    methods, each proved against a function on values. */
module Deafen {
  type Id = nat

  const RETRY_LIMIT: nat := 3

  /** One bot: the state Discord last confirmed, the state last asked for, and
      the pending work on the difference. */
  datatype Member = Member(deaf: bool, want: bool, inFlight: bool, timer: bool, failures: nat, rejected: bool)

  /** The fields guarded by the controller's mutex. */
  datatype Core = Core(members: map<Id, Member>, closed: bool, disabled: bool) {
    predicate Off() { closed || disabled }
  }

  function Capturing(capturing: map<Id, bool>, bot: Id): bool {
    bot in capturing && capturing[bot]
  }

  /** Drives one member toward `want`; the flag says an undeafen must be issued
      right away. */
  function Reconciled(off: bool, m: Member, immediate: bool): (Member, bool) {
    if off || m.inFlight then (m, false)
    else if m.want == m.deaf then (m.(timer := false, failures := 0), false)
    else if m.failures >= RETRY_LIMIT then (m.(timer := false), false)
    else if !m.want && immediate then (m.(timer := false, inFlight := true), true)
    else (m.(timer := true), false)
  }

  /** A re-request of a state Discord has already refused. */
  predicate Retrying(m: Member, want: bool) {
    m.rejected && want == m.want
  }

  function Observed(m: Member, want: bool): (Member, bool) {
    Reconciled(false, m.(want := want, failures := 0, rejected := Retrying(m, want)), !Retrying(m, want))
  }

  function Recorded(off: bool, m: Member, deaf: bool, ok: bool): (Member, bool) {
    var idle := m.(inFlight := false);
    var told := if ok then idle.(deaf := deaf, failures := 0, rejected := false)
                else idle.(failures := m.failures + 1, rejected := true);
    Reconciled(off, told, ok)
  }

  function NoTimers(members: map<Id, Member>): map<Id, Member> {
    map b | b in members :: members[b].(timer := false)
  }

  // ---------------------------------------------------------------------------
  // The critical sections, on values

  function RegisterCore(c: Core, bot: Id, deaf: bool): Core {
    if c.closed then c else c.(members := c.members[bot := Member(deaf, deaf, false, false, 0, false)])
  }

  function ObserveCore(c: Core, capturing: map<Id, bool>): (Core, set<Id>) {
    if c.Off() then (c, {})
    else (c.(members := map b | b in c.members :: Observed(c.members[b], !Capturing(capturing, b)).0),
          set b | b in c.members && Observed(c.members[b], !Capturing(capturing, b)).1)
  }

  datatype Launch = Nothing | Patch(deaf: bool)

  function TimerCore(c: Core, bot: Id): (Core, Launch) {
    if bot !in c.members || c.Off() || c.members[bot].inFlight || !c.members[bot].timer then (c, Nothing)
    else
      var m := c.members[bot].(timer := false);
      if m.want == m.deaf then (c.(members := c.members[bot := m]), Nothing)
      else (c.(members := c.members[bot := m.(inFlight := true)]), Patch(m.want))
  }

  function RecordCore(c: Core, bot: Id, deaf: bool, ok: bool): (Core, bool) {
    if bot !in c.members then (c, false)
    else
      var (m, undeafen) := Recorded(c.Off(), c.members[bot], deaf, ok);
      (c.(members := c.members[bot := m]), undeafen)
  }

  function NoteCore(c: Core, permission: bool): Core {
    if !permission || c.disabled then c else c.(disabled := true, members := NoTimers(c.members))
  }

  function CloseCore(c: Core): Core {
    if c.closed then c else c.(closed := true, members := NoTimers(c.members))
  }

  function StillDeaf(c: Core): set<Id> {
    set b | b in c.members && c.members[b].deaf
  }

  // ---------------------------------------------------------------------------

  class DeafController {
    var members: map<Id, Member>
    var closed: bool
    var disabled: bool

    ghost function Abs(): Core
      reads this
    {
      Core(members, closed, disabled)
    }

    constructor ()
      ensures Abs() == Core(map[], false, false)
    {
      members, closed, disabled := map[], false, false;
    }

    method Register(bot: Id, deaf: bool)
      modifies this
      ensures Abs() == RegisterCore(old(Abs()), bot, deaf)
    {
      if closed {
        return;
      }
      members := members[bot := Member(deaf, deaf, false, false, 0, false)];
    }

    /** Returns whether the caller must issue an undeafen once unlocked. */
    method ReconcileLocked(bot: Id, immediate: bool) returns (undeafen: bool)
      requires bot in members
      modifies this`members
      ensures members == old(members)[bot := Reconciled(closed || disabled, old(members)[bot], immediate).0]
      ensures undeafen == Reconciled(closed || disabled, old(members)[bot], immediate).1
    {
      var m := members[bot];
      if closed || disabled || m.inFlight {
        return false;
      }
      if m.want == m.deaf {
        members := members[bot := m.(timer := false, failures := 0)];
        return false;
      }
      if m.failures >= RETRY_LIMIT {
        members := members[bot := m.(timer := false)];
        return false;
      }
      if !m.want && immediate {
        members := members[bot := m.(timer := false, inFlight := true)];
        return true;
      }
      if m.timer {
        return false;
      }
      members := members[bot := m.(timer := true)];
      return false;
    }

    method ObserveMember(bot: Id, want: bool) returns (undeafen: bool)
      requires bot in members && !closed && !disabled
      modifies this`members
      ensures members == old(members)[bot := Observed(old(members)[bot], want).0]
      ensures undeafen == Observed(old(members)[bot], want).1
    {
      var mem := members[bot];
      var retrying := mem.rejected && want == mem.want;
      members := members[bot := mem.(failures := 0, rejected := retrying, want := want)];
      undeafen := ReconcileLocked(bot, !retrying);
    }

    method ObserveEach(capturing: map<Id, bool>) returns (undeafen: set<Id>)
      requires !closed && !disabled
      modifies this`members
      ensures members.Keys == old(members).Keys
      ensures forall b :: b in members ==> members[b] == Observed(old(members)[b], !Capturing(capturing, b)).0
      ensures forall b :: b in undeafen <==> b in members && Observed(old(members)[b], !Capturing(capturing, b)).1
    {
      hide Observed, Capturing;
      undeafen := {};
      var todo := members.Keys;
      while todo != {}
        invariant todo <= members.Keys && members.Keys == old(members).Keys
        invariant forall b :: b in todo ==> members[b] == old(members)[b]
        invariant forall b :: b in members && b !in todo ==> members[b] == Observed(old(members)[b], !Capturing(capturing, b)).0
        invariant forall b :: b in undeafen ==> b in members && b !in todo
        invariant forall b :: b in members && b !in todo ==>
                    (b in undeafen <==> Observed(old(members)[b], !Capturing(capturing, b)).1)
        decreases |todo|
      {
        var bot :| bot in todo;
        todo := todo - {bot};
        var now := ObserveMember(bot, !Capturing(capturing, bot));
        if now {
          undeafen := undeafen + {bot};
        }
      }
    }

    /** The router's capture callback; returns the bots to undeafen unlocked. */
    method Observe(capturing: map<Id, bool>) returns (undeafen: set<Id>)
      modifies this`members
      ensures Abs() == ObserveCore(old(Abs()), capturing).0
      ensures undeafen == ObserveCore(old(Abs()), capturing).1
    {
      hide Observed, Capturing;
      if closed || disabled {
        return {};
      }
      undeafen := ObserveEach(capturing);
    }

    /** The locked part of a timer callback. */
    method ApplyAfterDelay(bot: Id) returns (launch: Launch)
      modifies this`members
      ensures Abs() == TimerCore(old(Abs()), bot).0
      ensures launch == TimerCore(old(Abs()), bot).1
    {
      if bot !in members || closed || disabled || members[bot].inFlight || !members[bot].timer {
        return Nothing;
      }
      members := members[bot := members[bot].(timer := false)];
      if members[bot].want == members[bot].deaf {
        return Nothing;
      }
      launch := Patch(members[bot].want);
      members := members[bot := members[bot].(inFlight := true)];
    }

    /** The locked part of an apply, once Discord has answered. */
    method RecordAnswer(bot: Id, deaf: bool, ok: bool) returns (undeafen: bool)
      modifies this`members
      ensures Abs() == RecordCore(old(Abs()), bot, deaf, ok).0
      ensures undeafen == RecordCore(old(Abs()), bot, deaf, ok).1
    {
      undeafen := false;
      if bot in members {
        var m := members[bot].(inFlight := false);
        m := if ok then m.(deaf := deaf, failures := 0, rejected := false)
             else m.(failures := m.failures + 1, rejected := true);
        members := members[bot := m];
        undeafen := ReconcileLocked(bot, ok);
      }
    }

    method StopTimers()
      modifies this`members
      ensures members == NoTimers(old(members))
    {
      var todo := members.Keys;
      while todo != {}
        invariant todo <= members.Keys && members.Keys == old(members).Keys
        invariant forall b :: b in members ==> members[b] == if b in todo then old(members)[b] else old(members)[b].(timer := false)
        decreases |todo|
      {
        var b :| b in todo;
        todo := todo - {b};
        if members[b].timer {
          members := members[b := members[b].(timer := false)];
        }
      }
    }

    method NoteError(permission: bool)
      modifies this
      ensures Abs() == NoteCore(old(Abs()), permission)
    {
      if !permission || disabled {
        return;
      }
      disabled := true;
      StopTimers();
    }

    method BeginClose() returns (first: bool)
      modifies this
      ensures Abs() == CloseCore(old(Abs())) && first == !old(closed)
    {
      if closed {
        return false;
      }
      closed := true;
      StopTimers();
      return true;
    }

    /** The bots `Close` undeafens after waiting. */
    method RestoreList() returns (restore: set<Id>)
      ensures restore == StillDeaf(Abs())
    {
      restore := {};
      var todo := members.Keys;
      while todo != {}
        invariant todo <= members.Keys
        invariant restore == set b | b in members && b !in todo && members[b].deaf
        decreases |todo|
      {
        var b :| b in todo;
        todo := todo - {b};
        if members[b].deaf {
          restore := restore + {b};
        }
      }
    }
  }
}
