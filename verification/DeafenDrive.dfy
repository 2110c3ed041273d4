/** The controller's methods, called in any order the surroundings can bring
    about, follow the state machine of `DeafenRuns`. */
module DeafenDrive {
  import opened Deafen
  import opened DeafenRuns

  /** The controller's part of one event, run by its methods; what they return
      drives the surroundings. */
  method Step(d: DeafController, s: Sys, e: Event) returns (t: Sys)
    requires d.Abs() == s.core
    modifies d
    ensures t == Next(s, e) && d.Abs() == t.core
  {
    hide ObserveCore, TimerCore, RecordCore, NoteCore, CloseCore, RegisterCore, StillDeaf, Seen, Launched, Told, Settled, Drained;
    match e {
      case Register(bot, deaf) => t := DoRegister(d, s, bot, deaf);
      case Observe(capturing) => t := DoObserve(d, s, capturing);
      case TimerFires(bot) => t := DoTimer(d, s, bot);
      case Record(bot, n) => t := DoRecord(d, s, bot, n);
      case Note(bot, n) =>
        if InPhase(s, bot, n) && s.worlds[bot].flights[n].phase.Noting? {
          d.NoteError(s.worlds[bot].flights[n].phase.permission);
        }
        t := Effect(s, e);
      case JoinError(permission) =>
        d.NoteError(permission);
        t := s.(core := Core(d.members, d.closed, d.disabled));
      case CloseBegins =>
        if s.close == Open {
          var first := d.BeginClose();
        }
        t := Effect(s, e);
      case Snapshot =>
        t := s;
        if s.close.Passed? {
          var restore := d.RestoreList();
          t := s.(close := Restoring(restore, s.close.drained));
        }
      case _ => t := Effect(s, e);
    }
    t := t.(tick := s.tick + 1);
  }

  method DoRegister(d: DeafController, s: Sys, bot: Id, deaf: bool) returns (t: Sys)
    requires d.Abs() == s.core
    modifies d
    ensures t == Effect(s, Register(bot, deaf)) && d.Abs() == t.core
  {
    t := s;
    if bot !in d.members && !d.closed {
      d.Register(bot, deaf);
      t := With(s.(core := Core(d.members, d.closed, d.disabled)), bot, World(deaf, map[], 0, 0, false));
    }
  }

  method DoObserve(d: DeafController, s: Sys, capturing: map<Id, bool>) returns (t: Sys)
    requires d.Abs() == s.core
    modifies d
    ensures t == Effect(s, Observe(capturing)) && d.Abs() == t.core
  {
    hide Observed, Capturing, Seen;
    t := s;
    var off := d.closed || d.disabled;
    var now := d.Observe(capturing);
    if !off {
      t := s.(core := Core(d.members, d.closed, d.disabled),
              worlds := map b | b in s.worlds :: Seen(s.worlds[b], s.tick, b in now));
    }
  }

  method DoTimer(d: DeafController, s: Sys, bot: Id) returns (t: Sys)
    requires d.Abs() == s.core
    modifies d
    ensures t == Effect(s, TimerFires(bot)) && d.Abs() == t.core
  {
    hide TimerCore, Launched;
    var launch := d.ApplyAfterDelay(bot);
    t := s.(core := Core(d.members, d.closed, d.disabled));
    if launch.Patch? && bot in s.worlds {
      t := With(t, bot, Launched(s.worlds[bot], s.tick, launch.deaf, Launching));
    }
  }

  method DoRecord(d: DeafController, s: Sys, bot: Id, n: nat) returns (t: Sys)
    requires d.Abs() == s.core
    modifies d
    ensures t == Effect(s, Record(bot, n)) && d.Abs() == t.core
  {
    hide RecordCore, Settled;
    t := s;
    if InPhase(s, bot, n) && s.worlds[bot].flights[n].phase.Answered? {
      var a := s.worlds[bot].flights[n];
      var undeafen := d.RecordAnswer(bot, a.deaf, a.phase.ok);
      t := With(s.(core := Core(d.members, d.closed, d.disabled)), bot, Settled(s.worlds[bot], s.tick, n, undeafen));
    }
  }

  /** Over every run the controller is in the state the run says. */
  method Drive(es: seq<Event>) returns (d: DeafController, s: Sys)
    ensures fresh(d) && s == Run(INIT, es) && d.Abs() == s.core
  {
    hide Next;
    d := new DeafController();
    s := INIT;
    var i := 0;
    while i < |es|
      invariant i <= |es| && fresh(d) && s == Run(INIT, es[..i]) && d.Abs() == s.core
    {
      assert es[..i + 1][..i] == es[..i];
      s := Step(d, s, es[i]);
      i := i + 1;
    }
    assert es[..i] == es;
  }
}
