/** The guard in front of channel bindings: no two bots of a guild share a voice
    channel, as far as the bots known at the time of each bind go. */
module Bindings {
  import opened Store
  import opened Pipelines
  import Topology

  function ChannelOf(s: State, guild: Id, bot: Id): Option<Id> {
    Lookup(s.channels, BotKey(bot, guild))
  }

  /** Some other bot of `bots` is bound to the channel. */
  predicate Taken(s: State, bots: set<Id>, guild: Id, user: Id, channel: Id) {
    exists b :: b in bots && b != user && ChannelOf(s, guild, b) == Some(channel)
  }

  function Range(ids: seq<Id>): (r: set<Id>)
    ensures forall id :: id in r <==> id in ids
  {
    set id | id in ids
  }

  class Service {
    const owner: Id
    const store: YamlStore
    var pool: seq<Id>

    constructor (owner: Id, store: YamlStore, pool: seq<Id>)
      ensures this.owner == owner && this.store == store && this.pool == pool
    {
      this.owner, this.store, this.pool := owner, store, pool;
    }

    /** Binds unless another bot has the channel; then says which one. */
    method BindChannel(guild: Id, user: Id, channel: Id) returns (taken: Option<Id>)
      modifies store`channels
      ensures taken.Some? <==> old(Taken(store.Abs(), Range([owner] + pool), guild, user, channel))
      ensures taken.Some? ==> taken.value in [owner] + pool && taken.value != user
                              && ChannelOf(store.Abs(), guild, taken.value) == Some(channel)
                              && store.Abs() == old(store.Abs())
      ensures taken.None? ==> store.Abs() == Apply(old(store.Abs()), Op.BindChannel(guild, user, channel))
    {
      var bots := [owner] + pool;
      var i := 0;
      while i < |bots|
        invariant i <= |bots| && store.Abs() == old(store.Abs())
        invariant forall j :: 0 <= j < i && bots[j] != user ==> ChannelOf(store.Abs(), guild, bots[j]) != Some(channel)
      {
        if bots[i] != user {
          var bound := store.GetBoundChannel(guild, bots[i]);
          if bound == Some(channel) {
            assert bots[i] in Range(bots);
            return Some(bots[i]);
          }
        }
        i := i + 1;
      }
      store.BindChannel(guild, user, channel);
      taken := None;
    }
  }

  // ---------------------------------------------------------------------------
  // Every run

  datatype World = World(s: State, bots: set<Id>)

  /** `Other` stands for the store's operations on anything but channels. */
  datatype Call =
    | Bind(guild: Id, user: Id, channel: Id)
    | Unbind(guild: Id, user: Id)
    | Other(op: Op)
    | PoolBecomes(bots: set<Id>)

  function After(w: World, c: Call): World {
    match c
    case Bind(g, u, ch) => if Taken(w.s, w.bots, g, u, ch) then w else w.(s := Apply(w.s, BindChannel(g, u, ch)))
    case Unbind(g, u) => w.(s := Apply(w.s, UnbindChannel(g, u)))
    case Other(op) => if op.BindChannel? || op.UnbindChannel? then w else w.(s := Apply(w.s, op))
    case PoolBecomes(bots) => w.(bots := bots)
  }

  function RunCalls(w: World, calls: seq<Call>): World {
    if calls == [] then w else After(RunCalls(w, calls[..|calls| - 1]), calls[|calls| - 1])
  }

  /** Two bots bound to one channel. */
  predicate Shared(s: State, guild: Id, a: Id, b: Id) {
    a != b && ChannelOf(s, guild, a).Some? && ChannelOf(s, guild, a) == ChannelOf(s, guild, b)
  }

  predicate Exclusive(s: State, bots: set<Id>, guild: Id) {
    forall a, b :: a in bots && b in bots ==> !Shared(s, guild, a, b)
  }

  /** While the pool stays, guarded binds keep channels exclusive. */
  lemma {:induction false} GuardKeepsExclusive(w: World, calls: seq<Call>, guild: Id)
    requires Exclusive(w.s, w.bots, guild)
    requires forall c :: c in calls ==> !c.PoolBecomes?
    ensures RunCalls(w, calls).bots == w.bots
    ensures Exclusive(RunCalls(w, calls).s, w.bots, guild)
  {
    if calls != [] {
      var (front, c) := (calls[..|calls| - 1], calls[|calls| - 1]);
      assert c in calls;
      GuardKeepsExclusive(w, front, guild);
      var t := RunCalls(w, front);
      forall a, b | a in w.bots && b in w.bots
        ensures !Shared(After(t, c).s, guild, a, b)
      {
        assert !Shared(t.s, guild, a, b);
        if a != b { SharingBegins(t, c, guild, a, b); }
      }
    }
  }

  /** The call binds one of the two bots to the channel of the other, which the
      guard does not know, and no bot it does know has that channel. */
  predicate Joins(w: World, c: Call, guild: Id, a: Id, b: Id) {
    && c.Bind? && c.guild == guild && !Taken(w.s, w.bots, guild, c.user, c.channel)
    && ((c.user == a && b !in w.bots && ChannelOf(w.s, guild, b) == Some(c.channel))
        || (c.user == b && a !in w.bots && ChannelOf(w.s, guild, a) == Some(c.channel)))
  }

  /** Exactly such a call makes two bots share. */
  lemma SharingBegins(w: World, c: Call, guild: Id, a: Id, b: Id)
    requires a != b && !Shared(w.s, guild, a, b)
    ensures Shared(After(w, c).s, guild, a, b) <==> Joins(w, c, guild, a, b)
  {
    if c.Bind? && !Taken(w.s, w.bots, c.guild, c.user, c.channel) {
      assert b in w.bots && b != c.user ==> ChannelOf(w.s, c.guild, b) != Some(c.channel);
      assert a in w.bots && a != c.user ==> ChannelOf(w.s, c.guild, a) != Some(c.channel);
    }
  }

  predicate SharedAfter(w: World, calls: seq<Call>, n: nat, guild: Id, a: Id, b: Id)
    requires n <= |calls|
  {
    Shared(RunCalls(w, calls[..n]).s, guild, a, b)
  }

  predicate JoinedBy(w: World, calls: seq<Call>, n: nat, guild: Id, a: Id, b: Id)
    requires n < |calls|
  {
    Joins(RunCalls(w, calls[..n]), calls[n], guild, a, b)
  }

  lemma {:induction false} RunOneMore(w: World, calls: seq<Call>, n: nat)
    requires n < |calls|
    ensures RunCalls(w, calls[..n + 1]) == After(RunCalls(w, calls[..n]), calls[n])
  {
    assert calls[..n + 1][..n] == calls[..n];
  }

  /** In any run sharing begins at a call exactly if that call joins the two. */
  lemma SharingBeginsAt(w: World, calls: seq<Call>, n: nat, guild: Id, a: Id, b: Id)
    requires a != b && n < |calls|
    ensures !SharedAfter(w, calls, n, guild, a, b) && SharedAfter(w, calls, n + 1, guild, a, b)
            <==> !SharedAfter(w, calls, n, guild, a, b) && JoinedBy(w, calls, n, guild, a, b)
  {
    RunOneMore(w, calls, n);
    if !SharedAfter(w, calls, n, guild, a, b) {
      SharingBegins(RunCalls(w, calls[..n]), calls[n], guild, a, b);
    }
  }

  /** The two have shared at every point from the `n`th call on. */
  ghost predicate SharedSince(w: World, calls: seq<Call>, n: nat, guild: Id, a: Id, b: Id) {
    forall m :: n < m <= |calls| ==> SharedAfter(w, calls, m, guild, a, b)
  }

  /** So two bots share in the end exactly if they have all along, or some call
      joined them and they have since. */
  lemma {:induction false} SharedMeansJoined(w: World, calls: seq<Call>, guild: Id, a: Id, b: Id)
    requires a != b
    ensures Shared(RunCalls(w, calls).s, guild, a, b) <==>
              (forall m :: 0 <= m <= |calls| ==> SharedAfter(w, calls, m, guild, a, b))
              || (exists n :: 0 <= n < |calls| && JoinedBy(w, calls, n, guild, a, b) && SharedSince(w, calls, n, guild, a, b))
  {
    assert calls[..|calls|] == calls;
    assert SharedAfter(w, calls, |calls|, guild, a, b) <==> Shared(RunCalls(w, calls).s, guild, a, b);
    if Shared(RunCalls(w, calls).s, guild, a, b) {
      var n := |calls|;
      while n > 0 && SharedAfter(w, calls, n - 1, guild, a, b)
        invariant 0 <= n <= |calls| && forall m :: n <= m <= |calls| ==> SharedAfter(w, calls, m, guild, a, b)
      {
        n := n - 1;
      }
      if n > 0 {
        SharingBeginsAt(w, calls, n - 1, guild, a, b);
        assert JoinedBy(w, calls, n - 1, guild, a, b) && SharedSince(w, calls, n - 1, guild, a, b);
      }
    }
  }

  /** Both ways in exist, for any two bots: a bot that leaves the pool and comes
      back, and a document, which is loaded as it is. */
  lemma LeavingAndReturningShares(guild: Id, a: Id, b: Id, channel: Id)
    requires a != b
    ensures var calls := [Bind(guild, a, channel), PoolBecomes({b}), Bind(guild, b, channel), PoolBecomes({a, b})];
            var w := RunCalls(World(EMPTY, {a}), calls);
            w.bots == {a, b} && Shared(w.s, guild, a, b)
  {
    var calls := [Bind(guild, a, channel), PoolBecomes({b}), Bind(guild, b, channel), PoolBecomes({a, b})];
    assert calls[..3][..2] == [Bind(guild, a, channel), PoolBecomes({b})];
    assert calls[..3][..2][..1] == [Bind(guild, a, channel)] && calls[..3][..2][..1][..0] == [];
    var w := World(EMPTY, {a});
    assert RunCalls(w, calls[..3][..2][..1]) == After(w, calls[0]);
    assert RunCalls(w, calls[..3][..2]) == After(After(w, calls[0]), calls[1]);
    assert RunCalls(w, calls[..3]) == After(After(After(w, calls[0]), calls[1]), calls[2]);
  }

  lemma DocumentShares(guild: Id, a: Id, b: Id, channel: Id)
    requires a != b && channel != 0
    ensures var doc := [GuildEntry(guild, "", "", [ChannelEntry(a, channel, false), ChannelEntry(b, channel, false)], [])];
            Shared(Loaded(EMPTY, doc), guild, a, b)
  {
    var cs := [ChannelEntry(a, channel, false), ChannelEntry(b, channel, false)];
    var e := GuildEntry(guild, "", "", cs, []);
    assert [e][..0] == [] && cs[..1] == [ChannelEntry(a, channel, false)] && cs[..1][..0] == [];
    var s := PutChannel(PutChannel(EMPTY, guild, cs[0]), guild, cs[1]);
    assert PutChannels(EMPTY, guild, cs[..1]) == PutChannel(EMPTY, guild, cs[0]);
    assert PutChannels(EMPTY, guild, cs) == s;
    assert Loaded(EMPTY, [e]) == PutGuild(EMPTY, e);
  }

  // ---------------------------------------------------------------------------
  // What it means for a raid

  /** Every speaker joined the channel its bot is bound to. */
  predicate JoinedAsBound(s: State, guild: Id, joined: seq<Joined>) {
    forall j :: 0 <= j < |joined| ==> ChannelOf(s, guild, joined[j].bot) == Some(joined[j].channel)
  }

  /** With exclusive bindings no speaker shares the owner's channel, capturing or
      not. */
  lemma NobodySharesWithOwner(s: State, bots: set<Id>, guild: Id, ownerBot: Id, ownerChannel: Id, ownerOut: OwnerOut,
                              joined: seq<Joined>)
    requires DistinctBots(ownerBot, joined)
    requires ChannelOf(s, guild, ownerBot) == Some(ownerChannel) && JoinedAsBound(s, guild, joined)
    requires ownerBot in bots && (forall j :: 0 <= j < |joined| ==> joined[j].bot in bots) && Exclusive(s, bots, guild)
    ensures !SharesOwnerChannel(ownerChannel, ownerOut, joined) && !CapturedIn(joined, ownerChannel)
  {
    forall j | 0 <= j < |joined|
      ensures joined[j].channel != ownerChannel
    {
      assert !Shared(s, guild, ownerBot, joined[j].bot);
    }
  }

  /** So in the guild-caller graph mixing reaches all that copying does, and every
      mixer has one tick goroutine. */
  method BuildGuarded(s: State, bots: set<Id>, guild: Id, ownerBot: Id, ownerChannel: Id, ownerCaptures: bool,
                      ownerOut: OwnerOut, joined: seq<Joined>)
    returns (g: Topology.Graph, played: seq<DestChannel>)
    requires DistinctBots(ownerBot, joined) && DistinctOuts(joined, ownerOut) && RealChannels(ownerChannel, joined)
    requires ChannelOf(s, guild, ownerBot) == Some(ownerChannel) && JoinedAsBound(s, guild, joined)
    requires ownerBot in bots && (forall j :: 0 <= j < |joined| ==> joined[j].bot in bots) && Exclusive(s, bots, guild)
    ensures Topology.WellFormed(g) && MixersPlayAll(g.dests, played) && DistinctChannels(played) && StartedOnce(played)
    ensures forall j :: 0 <= j < |joined| ==> HasSlot(g, joined[j])
  {
    NobodySharesWithOwner(s, bots, guild, ownerBot, ownerChannel, ownerOut, joined);
    g, played := BuildGuildCaller(ownerBot, ownerChannel, ownerCaptures, ownerOut, joined);
  }
}
