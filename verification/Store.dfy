/** The bindings store: five flat maps, their mutators, and the grouping by guild
    that is written to disk and read back. */
module Store {
  type Id = nat

  /** A generated ally code. */
  type Code = s: string | |s| == 8 witness "AAAAAAAA"

  datatype BotKey = BotKey(user: Id, guild: Id)

  datatype RoleKey = RoleKey(guild: Id, role: string)

  datatype State = State(channels: map<BotKey, Id>, roles: map<RoleKey, Id>, codes: map<Id, string>,
                         locales: map<Id, string>, disabled: set<BotKey>)

  const EMPTY := State(map[], map[], map[], map[], {})

  /** The document: a field left out in the text reads back as zero. */
  datatype ChannelEntry = ChannelEntry(user: Id, channel: Id, disabled: bool)

  datatype RoleEntry = RoleEntry(role: string, id: Id)

  datatype GuildEntry = GuildEntry(guild: Id, code: string, locale: string,
                                   channels: seq<ChannelEntry>, roles: seq<RoleEntry>)

  // ---------------------------------------------------------------------------
  // Mutators

  datatype Op =
    | BindChannel(guild: Id, user: Id, channel: Id)
    | UnbindChannel(guild: Id, user: Id)
    | BindRole(guild: Id, role: string, id: Id)
    | UnbindRole(guild: Id, role: string)
    | CreateCode(guild: Id, draws: seq<Code>)
    | BindLocale(guild: Id, locale: string)
    | UnbindLocale(guild: Id)
    | SetEnabled(guild: Id, user: Id, enabled: bool)

  datatype Option<T> = None | Some(value: T)

  /** The first draw no guild uses yet. */
  function FirstUnused(used: set<string>, draws: seq<Code>): Option<Code> {
    if draws == [] then None
    else if draws[0] !in used then Some(draws[0])
    else FirstUnused(used, draws[1..])
  }

  function Apply(s: State, op: Op): State {
    match op
    case BindChannel(g, u, c) => s.(channels := s.channels[BotKey(u, g) := c])
    case UnbindChannel(g, u) => s.(channels := s.channels - {BotKey(u, g)})
    case BindRole(g, r, id) => s.(roles := s.roles[RoleKey(g, r) := id])
    case UnbindRole(g, r) => s.(roles := s.roles - {RoleKey(g, r)})
    case CreateCode(g, draws) =>
      var code := FirstUnused(s.codes.Values, draws);
      if g in s.codes || code == None then s else s.(codes := s.codes[g := code.value])
    case BindLocale(g, l) => if l == "" then s.(locales := s.locales - {g}) else s.(locales := s.locales[g := l])
    case UnbindLocale(g) => s.(locales := s.locales - {g})
    case SetEnabled(g, u, on) =>
      if on then s.(disabled := s.disabled - {BotKey(u, g)}) else s.(disabled := s.disabled + {BotKey(u, g)})
  }

  function Run(s: State, ops: seq<Op>): State {
    if ops == [] then s else Apply(Run(s, ops[..|ops| - 1]), ops[|ops| - 1])
  }

  // ---------------------------------------------------------------------------
  // What the document says

  function GetOr(m: map<Id, string>, g: Id): string {
    if g in m then m[g] else ""
  }

  /** The part of a state grouped so far. */
  datatype Part = Part(bound: set<BotKey>, roles: set<RoleKey>, codes: set<Id>, locales: set<Id>, lone: set<BotKey>)

  function Everything(s: State): Part {
    Part(s.channels.Keys, s.roles.Keys, s.codes.Keys, s.locales.Keys, s.disabled - s.channels.Keys)
  }

  predicate PartOf(s: State, p: Part) {
    && p.bound <= s.channels.Keys && p.roles <= s.roles.Keys && p.codes <= s.codes.Keys
    && p.locales <= s.locales.Keys && p.lone <= s.disabled - s.channels.Keys
  }

  /** The entry of a bot that is bound or only disabled. */
  function EntryOf(s: State, k: BotKey): ChannelEntry {
    if k in s.channels then ChannelEntry(k.user, s.channels[k], k in s.disabled) else ChannelEntry(k.user, 0, true)
  }

  predicate HasUser(cs: seq<ChannelEntry>, u: Id) {
    exists i :: 0 <= i < |cs| && cs[i].user == u
  }

  predicate HasRole(rs: seq<RoleEntry>, r: string) {
    exists i :: 0 <= i < |rs| && rs[i].role == r
  }

  predicate DistinctUsers(cs: seq<ChannelEntry>) {
    forall i, j :: 0 <= i < j < |cs| ==> cs[i].user != cs[j].user
  }

  predicate DistinctRoles(rs: seq<RoleEntry>) {
    forall i, j :: 0 <= i < j < |rs| ==> rs[i].role != rs[j].role
  }

  predicate ChannelsOk(s: State, keys: set<BotKey>, g: Id, cs: seq<ChannelEntry>) {
    && (forall i :: 0 <= i < |cs| ==> BotKey(cs[i].user, g) in keys && cs[i] == EntryOf(s, BotKey(cs[i].user, g)))
    && DistinctUsers(cs)
    && (forall k :: k in keys && k.guild == g ==> HasUser(cs, k.user))
  }

  predicate RolesOk(s: State, keys: set<RoleKey>, g: Id, rs: seq<RoleEntry>) {
    && (forall i :: 0 <= i < |rs| ==>
          RoleKey(g, rs[i].role) in keys && RoleKey(g, rs[i].role) in s.roles && rs[i].id == s.roles[RoleKey(g, rs[i].role)])
    && DistinctRoles(rs)
    && (forall k :: k in keys && k.guild == g ==> HasRole(rs, k.role))
  }

  predicate GuildOk(s: State, p: Part, e: GuildEntry) {
    && e.code == (if e.guild in p.codes then GetOr(s.codes, e.guild) else "")
    && e.locale == (if e.guild in p.locales then GetOr(s.locales, e.guild) else "")
    && ChannelsOk(s, p.bound + p.lone, e.guild, e.channels)
    && RolesOk(s, p.roles, e.guild, e.roles)
  }

  predicate Mentions(p: Part, g: Id) {
    || g in p.codes || g in p.locales
    || (exists k :: k in p.bound + p.lone && k.guild == g)
    || (exists k :: k in p.roles && k.guild == g)
  }

  /** The entries under construction, by guild. */
  ghost predicate Grouped(s: State, p: Part, guilds: map<Id, GuildEntry>) {
    && PartOf(s, p)
    && (forall g :: g in guilds <==> Mentions(p, g))
    && (forall g :: g in guilds ==> guilds[g].guild == g && GuildOk(s, p, guilds[g]))
  }

  predicate Ascending(doc: seq<GuildEntry>) {
    forall i, j :: 0 <= i < j < |doc| ==> doc[i].guild < doc[j].guild
  }

  predicate Lists(doc: seq<GuildEntry>, g: Id) {
    exists i :: 0 <= i < |doc| && doc[i].guild == g
  }

  /** A document of `s`: its guilds strictly ascending, each mentioned one listed
      once with exactly its bindings, in any order within the guild. */
  ghost predicate Represents(s: State, doc: seq<GuildEntry>) {
    && Ascending(doc)
    && (forall g :: Lists(doc, g) <==> Mentions(Everything(s), g))
    && (forall i :: 0 <= i < |doc| ==> GuildOk(s, Everything(s), doc[i]))
  }

  // ---------------------------------------------------------------------------
  // Grouping

  function Blank(g: Id): GuildEntry {
    GuildEntry(g, "", "", [], [])
  }

  function EntryFor(guilds: map<Id, GuildEntry>, g: Id): GuildEntry {
    if g in guilds then guilds[g] else Blank(g)
  }

  /** A guild not mentioned so far has the blank entry. */
  lemma BlankOk(s: State, p: Part, guilds: map<Id, GuildEntry>, g: Id)
    requires Grouped(s, p, guilds)
    ensures EntryFor(guilds, g).guild == g && GuildOk(s, p, EntryFor(guilds, g))
  {
  }

  lemma ChannelAdded(s: State, keys: set<BotKey>, k: BotKey, g: Id, cs: seq<ChannelEntry>)
    requires ChannelsOk(s, keys, g, cs) && k !in keys
    ensures ChannelsOk(s, keys + {k}, g, if k.guild == g then cs + [EntryOf(s, k)] else cs)
  {
    if k.guild == g {
      var t := cs + [EntryOf(s, k)];
      assert t[|cs|].user == k.user;
      forall u | HasUser(cs, u)
        ensures HasUser(t, u)
      {
        var i :| 0 <= i < |cs| && cs[i].user == u;
        assert t[i].user == u;
      }
    }
  }

  lemma RoleAdded(s: State, keys: set<RoleKey>, k: RoleKey, g: Id, rs: seq<RoleEntry>)
    requires RolesOk(s, keys, g, rs) && k !in keys && k in s.roles
    ensures RolesOk(s, keys + {k}, g, if k.guild == g then rs + [RoleEntry(k.role, s.roles[k])] else rs)
  {
    if k.guild == g {
      var t := rs + [RoleEntry(k.role, s.roles[k])];
      assert t[|rs|].role == k.role;
      forall r | HasRole(rs, r)
        ensures HasRole(t, r)
      {
        var i :| 0 <= i < |rs| && rs[i].role == r;
        assert t[i].role == r;
      }
    }
  }

  /** `k`, bound or only disabled, gets its entry. */
  lemma ChannelGrouped(s: State, p: Part, q: Part, guilds: map<Id, GuildEntry>, k: BotKey)
    requires Grouped(s, p, guilds) && k !in p.bound + p.lone && PartOf(s, q)
    requires q == p.(bound := p.bound + {k}) || q == p.(lone := p.lone + {k})
    ensures var e := EntryFor(guilds, k.guild);
            Grouped(s, q, guilds[k.guild := e.(channels := e.channels + [EntryOf(s, k)])])
  {
    hide ChannelsOk, RolesOk;
    var e := EntryFor(guilds, k.guild);
    var t := guilds[k.guild := e.(channels := e.channels + [EntryOf(s, k)])];
    var keys := p.bound + p.lone;
    assert q.bound + q.lone == keys + {k};
    forall g
      ensures g in t <==> Mentions(q, g)
    {
      assert Mentions(q, g) <==> Mentions(p, g) || g == k.guild;
    }
    forall g | g in t
      ensures t[g].guild == g && GuildOk(s, q, t[g])
    {
      assert EntryFor(guilds, g).guild == g && GuildOk(s, p, EntryFor(guilds, g)) by { BlankOk(s, p, guilds, g); }
      ChannelAdded(s, keys, k, g, EntryFor(guilds, g).channels);
    }
  }

  lemma RoleGrouped(s: State, p: Part, guilds: map<Id, GuildEntry>, k: RoleKey)
    requires Grouped(s, p, guilds) && k !in p.roles && k in s.roles
    ensures var e := EntryFor(guilds, k.guild);
            Grouped(s, p.(roles := p.roles + {k}), guilds[k.guild := e.(roles := e.roles + [RoleEntry(k.role, s.roles[k])])])
  {
    hide ChannelsOk, RolesOk;
    var e := EntryFor(guilds, k.guild);
    var q := p.(roles := p.roles + {k});
    var t := guilds[k.guild := e.(roles := e.roles + [RoleEntry(k.role, s.roles[k])])];
    forall g
      ensures g in t <==> Mentions(q, g)
    {
      assert Mentions(q, g) <==> Mentions(p, g) || g == k.guild;
    }
    forall g | g in t
      ensures t[g].guild == g && GuildOk(s, q, t[g])
    {
      assert EntryFor(guilds, g).guild == g && GuildOk(s, p, EntryFor(guilds, g)) by { BlankOk(s, p, guilds, g); }
      RoleAdded(s, p.roles, k, g, EntryFor(guilds, g).roles);
    }
  }

  lemma CodeGrouped(s: State, p: Part, guilds: map<Id, GuildEntry>, g: Id)
    requires Grouped(s, p, guilds) && g !in p.codes && g in s.codes
    ensures Grouped(s, p.(codes := p.codes + {g}), guilds[g := EntryFor(guilds, g).(code := s.codes[g])])
  {
    hide ChannelsOk, RolesOk;
    var q := p.(codes := p.codes + {g});
    var t := guilds[g := EntryFor(guilds, g).(code := s.codes[g])];
    forall h
      ensures h in t <==> Mentions(q, h)
    {
      assert Mentions(q, h) <==> Mentions(p, h) || h == g;
    }
    BlankOk(s, p, guilds, g);
  }

  lemma LocaleGrouped(s: State, p: Part, guilds: map<Id, GuildEntry>, g: Id)
    requires Grouped(s, p, guilds) && g !in p.locales && g in s.locales
    ensures Grouped(s, p.(locales := p.locales + {g}), guilds[g := EntryFor(guilds, g).(locale := s.locales[g])])
  {
    hide ChannelsOk, RolesOk;
    var q := p.(locales := p.locales + {g});
    var t := guilds[g := EntryFor(guilds, g).(locale := s.locales[g])];
    forall h
      ensures h in t <==> Mentions(q, h)
    {
      assert Mentions(q, h) <==> Mentions(p, h) || h == g;
    }
    BlankOk(s, p, guilds, g);
  }

  lemma NothingGrouped(s: State)
    ensures Grouped(s, Part({}, {}, {}, {}, {}), map[])
  {
  }

  // ---------------------------------------------------------------------------
  // Reading back

  function PutChannel(s: State, g: Id, c: ChannelEntry): State {
    var t := if c.channel != 0 then s.(channels := s.channels[BotKey(c.user, g) := c.channel]) else s;
    if c.disabled then t.(disabled := t.disabled + {BotKey(c.user, g)}) else t
  }

  function PutChannels(s: State, g: Id, cs: seq<ChannelEntry>): State {
    if cs == [] then s else PutChannel(PutChannels(s, g, cs[..|cs| - 1]), g, cs[|cs| - 1])
  }

  function PutRoles(s: State, g: Id, rs: seq<RoleEntry>): State {
    if rs == [] then s
    else
      var t := PutRoles(s, g, rs[..|rs| - 1]);
      t.(roles := t.roles[RoleKey(g, rs[|rs| - 1].role) := rs[|rs| - 1].id])
  }

  function PutTexts(s: State, e: GuildEntry): State {
    s.(codes := if e.code != "" then s.codes[e.guild := e.code] else s.codes,
       locales := if e.locale != "" then s.locales[e.guild := e.locale] else s.locales)
  }

  function PutGuild(s: State, e: GuildEntry): State {
    PutTexts(PutRoles(PutChannels(s, e.guild, e.channels), e.guild, e.roles), e)
  }

  /** The store a document is read into, starting from `s`. */
  function Loaded(s: State, doc: seq<GuildEntry>): State {
    if doc == [] then s else PutGuild(Loaded(s, doc[..|doc| - 1]), doc[|doc| - 1])
  }

  /** `k` is bound and disabled in `t` as in `s`. */
  predicate SameBot(s: State, t: State, k: BotKey) {
    && (k in t.channels <==> k in s.channels) && (k in s.channels ==> t.channels[k] == s.channels[k])
    && (k in t.disabled <==> k in s.disabled)
  }

  predicate SameRole(s: State, t: State, k: RoleKey) {
    (k in t.roles <==> k in s.roles) && (k in s.roles ==> t.roles[k] == s.roles[k])
  }

  predicate SameTexts(s: State, t: State, g: Id) {
    && (g in t.codes <==> g in s.codes) && (g in s.codes ==> t.codes[g] == s.codes[g])
    && (g in t.locales <==> g in s.locales) && (g in s.locales ==> t.locales[g] == s.locales[g])
  }

  /** What is left of `s` in a document: no zero channel, no empty text. */
  function Stored(s: State): State {
    State(map k | k in s.channels && s.channels[k] != 0 :: s.channels[k], s.roles,
          map g | g in s.codes && s.codes[g] != "" :: s.codes[g],
          map g | g in s.locales && s.locales[g] != "" :: s.locales[g], s.disabled)
  }

  lemma {:induction false} PutChannelsAt(s: State, g: Id, cs: seq<ChannelEntry>, k: BotKey)
    requires DistinctUsers(cs)
    ensures var t := PutChannels(s, g, cs);
            && t.roles == s.roles && t.codes == s.codes && t.locales == s.locales
            && (k.guild != g || !HasUser(cs, k.user) ==> SameBot(s, t, k))
            && (forall i :: 0 <= i < |cs| && k == BotKey(cs[i].user, g) ==> SameBot(PutChannel(s, g, cs[i]), t, k))
  {
    if cs != [] {
      var (front, c) := (cs[..|cs| - 1], cs[|cs| - 1]);
      PutChannelsAt(s, g, front, k);
      HasUserFront(cs, k.user);
      hide SameBot, HasUser;
      var (before, t) := (PutChannels(s, g, front), PutChannels(s, g, cs));
      assert t == PutChannel(before, g, c);
      if k == BotKey(c.user, g) {
        PutChannelLocal(s, before, g, c, k);
      } else {
        PutElsewhere(before, g, c, k);
        if SameBot(s, before, k) { SameBotStill(s, before, t, k); }
        forall i | 0 <= i < |cs| && k == BotKey(cs[i].user, g)
          ensures SameBot(PutChannel(s, g, cs[i]), t, k)
        {
          assert cs[i] == front[i];
          SameBotStill(PutChannel(s, g, cs[i]), before, t, k);
        }
      }
    }
  }

  lemma HasUserFront(cs: seq<ChannelEntry>, u: Id)
    requires cs != [] && DistinctUsers(cs)
    ensures HasUser(cs, u) <==> HasUser(cs[..|cs| - 1], u) || cs[|cs| - 1].user == u
    ensures cs[|cs| - 1].user == u ==> !HasUser(cs[..|cs| - 1], u)
  {
    var front := cs[..|cs| - 1];
    if HasUser(front, u) {
      var i :| 0 <= i < |front| && front[i].user == u;
      assert cs[i].user == u;
    }
    if HasUser(cs, u) && cs[|cs| - 1].user != u {
      var i :| 0 <= i < |cs| && cs[i].user == u;
      assert front[i].user == u;
    }
  }

  lemma PutElsewhere(s: State, g: Id, c: ChannelEntry, k: BotKey)
    requires k != BotKey(c.user, g)
    ensures SameBot(s, PutChannel(s, g, c), k)
    ensures PutChannel(s, g, c).roles == s.roles && PutChannel(s, g, c).codes == s.codes && PutChannel(s, g, c).locales == s.locales
  {
  }

  lemma SameBotStill(s: State, t: State, u: State, k: BotKey)
    requires SameBot(s, t, k) && SameBot(t, u, k)
    ensures SameBot(s, u, k)
  {
  }

  lemma {:induction false} PutRolesAt(s: State, g: Id, rs: seq<RoleEntry>, k: RoleKey)
    requires DistinctRoles(rs)
    ensures var t := PutRoles(s, g, rs);
            && t.channels == s.channels && t.codes == s.codes && t.locales == s.locales && t.disabled == s.disabled
            && (k.guild != g || !HasRole(rs, k.role) ==> SameRole(s, t, k))
            && (forall i :: 0 <= i < |rs| && k == RoleKey(g, rs[i].role) ==> k in t.roles && t.roles[k] == rs[i].id)
  {
    if rs != [] {
      var front := rs[..|rs| - 1];
      PutRolesAt(s, g, front, k);
      assert HasRole(front, k.role) ==> HasRole(rs, k.role) by {
        if HasRole(front, k.role) {
          var i :| 0 <= i < |front| && front[i].role == k.role;
          assert rs[i].role == k.role;
        }
      }
    }
  }

  lemma PutChannelLocal(s: State, t: State, g: Id, c: ChannelEntry, k: BotKey)
    requires SameBot(s, t, k)
    ensures SameBot(PutChannel(s, g, c), PutChannel(t, g, c), k)
  {
  }

  /** At `k`, loading channels depends only on what was there at `k`. */
  lemma {:induction false} PutChannelsLocal(s: State, t: State, g: Id, cs: seq<ChannelEntry>, k: BotKey)
    requires SameBot(s, t, k)
    ensures SameBot(PutChannels(s, g, cs), PutChannels(t, g, cs), k)
  {
    hide PutChannel, SameBot;
    if cs != [] {
      var front := cs[..|cs| - 1];
      PutChannelsLocal(s, t, g, front, k);
      PutChannelLocal(PutChannels(s, g, front), PutChannels(t, g, front), g, cs[|cs| - 1], k);
    }
  }

  lemma {:induction false} PutRolesLocal(s: State, t: State, g: Id, rs: seq<RoleEntry>, k: RoleKey)
    requires DistinctRoles(rs) && SameRole(s, t, k)
    ensures SameRole(PutRoles(s, g, rs), PutRoles(t, g, rs), k)
  {
    PutRolesAt(s, g, rs, k);
    PutRolesAt(t, g, rs, k);
    if k.guild == g && HasRole(rs, k.role) {
      var i :| 0 <= i < |rs| && rs[i].role == k.role;
      assert k == RoleKey(g, rs[i].role);
    }
  }

  ghost predicate Distinct(doc: seq<GuildEntry>) {
    Ascending(doc) && forall n :: 0 <= n < |doc| ==> DistinctUsers(doc[n].channels) && DistinctRoles(doc[n].roles)
  }

  /** The keys of a guild the document does not list are not loaded; those of a
      listed one are loaded from its entry. */
  lemma {:induction false} LoadedBot(doc: seq<GuildEntry>, k: BotKey)
    requires Distinct(doc)
    ensures !Lists(doc, k.guild) ==> SameBot(EMPTY, Loaded(EMPTY, doc), k)
    ensures forall n :: 0 <= n < |doc| && doc[n].guild == k.guild ==>
                          SameBot(PutChannels(EMPTY, k.guild, doc[n].channels), Loaded(EMPTY, doc), k)
  {
    if doc != [] {
      var (front, e) := (doc[..|doc| - 1], doc[|doc| - 1]);
      LoadedBot(front, k);
      ListsFront(doc, k.guild);
      var s := Loaded(EMPTY, front);
      var c := PutChannels(s, e.guild, e.channels);
      PutChannelsAt(s, e.guild, e.channels, k);
      PutRolesKeep(c, e.guild, e.roles);
      assert SameBot(c, Loaded(EMPTY, doc), k);
      if k.guild == e.guild {
        PutChannelsLocal(EMPTY, s, e.guild, e.channels, k);
      }
    }
  }

  lemma {:induction false} LoadedRole(doc: seq<GuildEntry>, k: RoleKey)
    requires Distinct(doc)
    ensures !Lists(doc, k.guild) ==> SameRole(EMPTY, Loaded(EMPTY, doc), k)
    ensures forall n :: 0 <= n < |doc| && doc[n].guild == k.guild ==>
                          SameRole(PutRoles(EMPTY, k.guild, doc[n].roles), Loaded(EMPTY, doc), k)
  {
    if doc != [] {
      var (front, e) := (doc[..|doc| - 1], doc[|doc| - 1]);
      LoadedRole(front, k);
      ListsFront(doc, k.guild);
      var s := Loaded(EMPTY, front);
      var c := PutChannels(s, e.guild, e.channels);
      PutChannelsAt(s, e.guild, e.channels, BotKey(0, 0));
      PutRolesAt(c, e.guild, e.roles, k);
      assert SameRole(PutRoles(c, e.guild, e.roles), Loaded(EMPTY, doc), k);
      if k.guild == e.guild {
        PutRolesLocal(EMPTY, c, e.guild, e.roles, k);
      }
    }
  }

  lemma {:induction false} LoadedTexts(doc: seq<GuildEntry>, g: Id)
    requires Distinct(doc)
    ensures !Lists(doc, g) ==> SameTexts(EMPTY, Loaded(EMPTY, doc), g)
    ensures forall n :: 0 <= n < |doc| && doc[n].guild == g ==> SameTexts(PutTexts(EMPTY, doc[n]), Loaded(EMPTY, doc), g)
  {
    if doc != [] {
      var (front, e) := (doc[..|doc| - 1], doc[|doc| - 1]);
      LoadedTexts(front, g);
      ListsFront(doc, g);
      var s := Loaded(EMPTY, front);
      var c := PutChannels(s, e.guild, e.channels);
      PutChannelsAt(s, e.guild, e.channels, BotKey(0, 0));
      PutRolesKeep(c, e.guild, e.roles);
    }
  }

  lemma {:induction false} PutRolesKeep(s: State, g: Id, rs: seq<RoleEntry>)
    ensures PutRoles(s, g, rs) == s.(roles := PutRoles(s, g, rs).roles)
  {
    if rs != [] {
      PutRolesKeep(s, g, rs[..|rs| - 1]);
    }
  }

  /** The last guild of an ascending document is not listed before it. */
  lemma ListsFront(doc: seq<GuildEntry>, g: Id)
    requires Ascending(doc) && doc != []
    ensures Lists(doc, g) <==> Lists(doc[..|doc| - 1], g) || doc[|doc| - 1].guild == g
    ensures !(Lists(doc[..|doc| - 1], g) && doc[|doc| - 1].guild == g)
  {
    var front := doc[..|doc| - 1];
    if Lists(front, g) {
      var i :| 0 <= i < |front| && front[i].guild == g;
      assert doc[i].guild == g;
    }
    if Lists(doc, g) && doc[|doc| - 1].guild != g {
      var i :| 0 <= i < |doc| && doc[i].guild == g;
      assert front[i].guild == g;
    }
  }

  /** Reading a document of `s` back gives `s` without zero channels and empty
      texts, whatever order the maps were walked in. */
  lemma {:induction false} ReadBack(s: State, doc: seq<GuildEntry>)
    requires Represents(s, doc)
    ensures Loaded(EMPTY, doc) == Stored(s)
  {
    hide Loaded, Mentions, PutChannels, PutRoles, EntryOf;
    var t := Loaded(EMPTY, doc);
    assert Distinct(doc) by { DocIsDistinct(s, doc); }
    forall k: BotKey
      ensures SameBot(Stored(s), t, k)
    {
      ReadBackBot(s, doc, k);
    }
    forall k: RoleKey
      ensures SameRole(Stored(s), t, k)
    {
      ReadBackRole(s, doc, k);
    }
    forall g: Id
      ensures SameTexts(Stored(s), t, g)
    {
      ReadBackTexts(s, doc, g);
    }
    SameEverywhere(Stored(s), t);
  }

  lemma SameEverywhere(s: State, t: State)
    requires forall k: BotKey :: SameBot(s, t, k)
    requires forall k: RoleKey :: SameRole(s, t, k)
    requires forall g: Id :: SameTexts(s, t, g)
    ensures s == t
  {
    forall k: BotKey
      ensures (k in s.channels <==> k in t.channels) && (k in s.channels ==> s.channels[k] == t.channels[k])
      ensures k in s.disabled <==> k in t.disabled
    {
      assert SameBot(s, t, k);
    }
    forall k: RoleKey
      ensures (k in s.roles <==> k in t.roles) && (k in s.roles ==> s.roles[k] == t.roles[k])
    {
      assert SameRole(s, t, k);
    }
    forall g: Id
      ensures (g in s.codes <==> g in t.codes) && (g in s.codes ==> s.codes[g] == t.codes[g])
      ensures (g in s.locales <==> g in t.locales) && (g in s.locales ==> s.locales[g] == t.locales[g])
    {
      assert SameTexts(s, t, g);
    }
    assert s.channels == t.channels && s.disabled == t.disabled && s.roles == t.roles;
    assert s.codes == t.codes && s.locales == t.locales;
  }

  lemma DocIsDistinct(s: State, doc: seq<GuildEntry>)
    requires Represents(s, doc)
    ensures Distinct(doc)
  {
    forall n | 0 <= n < |doc|
      ensures DistinctUsers(doc[n].channels) && DistinctRoles(doc[n].roles)
    {
      assert GuildOk(s, Everything(s), doc[n]);
    }
  }

  /** The entry of a bot reads back as what was stored of it. */
  lemma EntryReadsBack(s: State, k: BotKey)
    requires k in s.channels || k in s.disabled
    ensures SameBot(Stored(s), PutChannel(EMPTY, k.guild, EntryOf(s, k)), k)
  {
  }

  lemma {:induction false} ReadBackBot(s: State, doc: seq<GuildEntry>, k: BotKey)
    requires Represents(s, doc)
    ensures SameBot(Stored(s), Loaded(EMPTY, doc), k)
  {
    hide PutChannels, Loaded, EntryOf, RolesOk, Distinct;
    DocIsDistinct(s, doc);
    LoadedBot(doc, k);
    var p := Everything(s);
    if Lists(doc, k.guild) {
      var n :| 0 <= n < |doc| && doc[n].guild == k.guild;
      assert GuildOk(s, p, doc[n]);
      ReadBackListed(s, doc[n].channels, k);
    } else {
      assert !Mentions(p, k.guild);
    }
  }

  lemma {:induction false} ReadBackListed(s: State, cs: seq<ChannelEntry>, k: BotKey)
    requires ChannelsOk(s, Everything(s).bound + Everything(s).lone, k.guild, cs)
    ensures SameBot(Stored(s), PutChannels(EMPTY, k.guild, cs), k)
  {
    hide PutChannels, PutChannel, EntryOf;
    PutChannelsAt(EMPTY, k.guild, cs, k);
    if HasUser(cs, k.user) {
      var i :| 0 <= i < |cs| && cs[i].user == k.user;
      assert k == BotKey(cs[i].user, k.guild) && cs[i] == EntryOf(s, k);
      EntryReadsBack(s, k);
    }
  }

  lemma {:induction false} ReadBackRole(s: State, doc: seq<GuildEntry>, k: RoleKey)
    requires Represents(s, doc)
    ensures SameRole(Stored(s), Loaded(EMPTY, doc), k)
  {
    DocIsDistinct(s, doc);
    LoadedRole(doc, k);
    var p := Everything(s);
    if Lists(doc, k.guild) {
      var n :| 0 <= n < |doc| && doc[n].guild == k.guild;
      var rs := doc[n].roles;
      assert GuildOk(s, p, doc[n]) && RolesOk(s, p.roles, k.guild, rs);
      PutRolesAt(EMPTY, k.guild, rs, k);
      if HasRole(rs, k.role) {
        var i :| 0 <= i < |rs| && rs[i].role == k.role;
        assert k == RoleKey(k.guild, rs[i].role);
      }
    } else {
      assert !Mentions(p, k.guild);
    }
  }

  lemma {:induction false} ReadBackTexts(s: State, doc: seq<GuildEntry>, g: Id)
    requires Represents(s, doc)
    ensures SameTexts(Stored(s), Loaded(EMPTY, doc), g)
  {
    DocIsDistinct(s, doc);
    LoadedTexts(doc, g);
    var p := Everything(s);
    if Lists(doc, g) {
      var n :| 0 <= n < |doc| && doc[n].guild == g;
      assert GuildOk(s, p, doc[n]);
    } else {
      assert !Mentions(p, g);
    }
  }

  predicate NoZeroChannel(s: State) {
    forall k :: k in s.channels ==> s.channels[k] != 0
  }

  predicate NoEmptyText(s: State) {
    (forall g :: g in s.codes ==> s.codes[g] != "") && (forall g :: g in s.locales ==> s.locales[g] != "")
  }

  /** The round trip keeps a store exactly when it has no zero channel and no
      empty text. */
  lemma {:induction false} RoundTrip(s: State, doc: seq<GuildEntry>)
    requires Represents(s, doc)
    ensures Loaded(EMPTY, doc) == s <==> NoZeroChannel(s) && NoEmptyText(s)
  {
    hide Represents, Loaded;
    ReadBack(s, doc);
    if NoZeroChannel(s) && NoEmptyText(s) {
      assert Stored(s).channels == s.channels && Stored(s).codes == s.codes && Stored(s).locales == s.locales;
    }
    if Stored(s) == s {
      forall k | k in s.channels
        ensures s.channels[k] != 0
      {
        assert k in Stored(s).channels;
      }
      forall g | g in s.codes
        ensures s.codes[g] != ""
      {
        assert g in Stored(s).codes;
      }
      forall g | g in s.locales
        ensures s.locales[g] != ""
      {
        assert g in Stored(s).locales;
      }
    }
  }

  lemma {:induction false} LoadedTextsKept(doc: seq<GuildEntry>)
    ensures NoEmptyText(Loaded(EMPTY, doc)) && NoZeroChannel(Loaded(EMPTY, doc))
  {
    if doc != [] {
      var (front, e) := (doc[..|doc| - 1], doc[|doc| - 1]);
      LoadedTextsKept(front);
      PutChannelsNoZero(Loaded(EMPTY, front), e.guild, e.channels);
      PutRolesKeep(PutChannels(Loaded(EMPTY, front), e.guild, e.channels), e.guild, e.roles);
    }
  }

  lemma {:induction false} PutChannelsNoZero(s: State, g: Id, cs: seq<ChannelEntry>)
    requires NoZeroChannel(s)
    ensures NoZeroChannel(PutChannels(s, g, cs))
    ensures PutChannels(s, g, cs).codes == s.codes && PutChannels(s, g, cs).locales == s.locales
  {
    if cs != [] {
      PutChannelsNoZero(s, g, cs[..|cs| - 1]);
    }
  }

  /** Over every run of the mutators on a store opened from any document, no text
      is empty, and codes are distinct exactly when the document's were. */
  lemma {:induction false} MutatorsKeepTexts(doc: seq<GuildEntry>, ops: seq<Op>)
    ensures NoEmptyText(Run(Loaded(EMPTY, doc), ops))
    ensures CodesDistinct(Run(Loaded(EMPTY, doc), ops).codes) <==> CodesDistinct(Loaded(EMPTY, doc).codes)
  {
    hide Loaded;
    LoadedTextsKept(doc);
    if ops != [] {
      MutatorsKeepTexts(doc, ops[..|ops| - 1]);
      var (s, op) := (Run(Loaded(EMPTY, doc), ops[..|ops| - 1]), ops[|ops| - 1]);
      if op.CreateCode? {
        FirstUnusedIsUnused(s.codes.Values, op.draws);
        var code := FirstUnused(s.codes.Values, op.draws);
        if op.guild !in s.codes && code.Some? {
          NewCodeDistinct(s.codes, op.guild, code.value);
        }
      }
    }
  }

  predicate CodesDistinct(codes: map<Id, string>) {
    forall g, h :: g in codes && h in codes && g != h ==> codes[g] != codes[h]
  }

  lemma NewCodeDistinct(codes: map<Id, string>, g: Id, code: string)
    requires g !in codes && code !in codes.Values
    ensures CodesDistinct(codes[g := code]) <==> CodesDistinct(codes)
  {
    var t := codes[g := code];
    forall h | h in codes
      ensures codes[h] != code && t[h] == codes[h]
    {
      assert codes[h] in codes.Values;
    }
    if CodesDistinct(t) {
      forall x, y | x in codes && y in codes && x != y
        ensures codes[x] != codes[y]
      {
        assert t[x] != t[y];
      }
    }
  }

  lemma {:induction false} FirstUnusedIsUnused(used: set<string>, draws: seq<Code>)
    ensures FirstUnused(used, draws).Some? ==> FirstUnused(used, draws).value !in used && FirstUnused(used, draws).value in draws
    ensures FirstUnused(used, draws) == None ==> forall d :: d in draws ==> d in used
  {
    if draws != [] {
      FirstUnusedIsUnused(used, draws[1..]);
    }
  }

  // ---------------------------------------------------------------------------
  // The last word on every key

  /** What a run last said of a bot's channel; operations on other keys, and of
      other kinds, do not matter. */
  function LastBind(s: State, ops: seq<Op>, k: BotKey): Option<Id> {
    if ops == [] then if k in s.channels then Some(s.channels[k]) else None
    else
      match ops[|ops| - 1]
      case BindChannel(g, u, c) => if k == BotKey(u, g) then Some(c) else LastBind(s, ops[..|ops| - 1], k)
      case UnbindChannel(g, u) => if k == BotKey(u, g) then None else LastBind(s, ops[..|ops| - 1], k)
      case _ => LastBind(s, ops[..|ops| - 1], k)
  }

  function LastRole(s: State, ops: seq<Op>, k: RoleKey): Option<Id> {
    if ops == [] then if k in s.roles then Some(s.roles[k]) else None
    else
      match ops[|ops| - 1]
      case BindRole(g, r, id) => if k == RoleKey(g, r) then Some(id) else LastRole(s, ops[..|ops| - 1], k)
      case UnbindRole(g, r) => if k == RoleKey(g, r) then None else LastRole(s, ops[..|ops| - 1], k)
      case _ => LastRole(s, ops[..|ops| - 1], k)
  }

  /** Binding the empty locale says there is none. */
  function LastLocale(s: State, ops: seq<Op>, g: Id): Option<string> {
    if ops == [] then if g in s.locales then Some(s.locales[g]) else None
    else
      match ops[|ops| - 1]
      case BindLocale(h, l) => if g != h then LastLocale(s, ops[..|ops| - 1], g) else if l == "" then None else Some(l)
      case UnbindLocale(h) => if g == h then None else LastLocale(s, ops[..|ops| - 1], g)
      case _ => LastLocale(s, ops[..|ops| - 1], g)
  }

  function LastDisabled(s: State, ops: seq<Op>, k: BotKey): bool {
    if ops == [] then k in s.disabled
    else
      match ops[|ops| - 1]
      case SetEnabled(g, u, on) => if k == BotKey(u, g) then !on else LastDisabled(s, ops[..|ops| - 1], k)
      case _ => LastDisabled(s, ops[..|ops| - 1], k)
  }

  function Lookup<K, V>(m: map<K, V>, k: K): Option<V> {
    if k in m then Some(m[k]) else None
  }

  lemma {:induction false} LastBindWins(s: State, ops: seq<Op>, k: BotKey)
    ensures Lookup(Run(s, ops).channels, k) == LastBind(s, ops, k)
  {
    if ops != [] {
      LastBindWins(s, ops[..|ops| - 1], k);
    }
  }

  lemma {:induction false} LastRoleWins(s: State, ops: seq<Op>, k: RoleKey)
    ensures Lookup(Run(s, ops).roles, k) == LastRole(s, ops, k)
  {
    if ops != [] {
      LastRoleWins(s, ops[..|ops| - 1], k);
    }
  }

  lemma {:induction false} LastLocaleWins(s: State, ops: seq<Op>, g: Id)
    ensures Lookup(Run(s, ops).locales, g) == LastLocale(s, ops, g)
  {
    if ops != [] {
      LastLocaleWins(s, ops[..|ops| - 1], g);
    }
  }

  lemma {:induction false} LastDisabledWins(s: State, ops: seq<Op>, k: BotKey)
    ensures k in Run(s, ops).disabled <==> LastDisabled(s, ops, k)
  {
    if ops != [] {
      LastDisabledWins(s, ops[..|ops| - 1], k);
    }
  }

  /** A code once given stays. */
  lemma {:induction false} CodesStay(s: State, ops: seq<Op>, g: Id)
    requires g in s.codes
    ensures g in Run(s, ops).codes && Run(s, ops).codes[g] == s.codes[g]
  {
    if ops != [] {
      CodesStay(s, ops[..|ops| - 1], g);
    }
  }

  /** No bot was last bound to channel zero. */
  ghost predicate NoneLastZero(s: State, ops: seq<Op>) {
    forall k :: LastBind(s, ops, k) != Some(0)
  }

  lemma {:induction false} NoneLastZeroIs(s: State, ops: seq<Op>)
    ensures NoneLastZero(s, ops) <==> NoZeroChannel(Run(s, ops))
  {
    hide LastBind, Run;
    var t := Run(s, ops);
    forall k
      ensures Lookup(t.channels, k) == LastBind(s, ops, k)
    {
      LastBindWins(s, ops, k);
    }
    if NoneLastZero(s, ops) {
      forall k | k in t.channels
        ensures t.channels[k] != 0
      {
        assert Lookup(t.channels, k) == LastBind(s, ops, k);
      }
    }
    if NoZeroChannel(t) {
      forall k
        ensures LastBind(s, ops, k) != Some(0)
      {
        assert Lookup(t.channels, k) == LastBind(s, ops, k);
      }
    }
  }

  /** A store the mutators can reach from any document round-trips exactly when
      no bot was last bound to channel zero. */
  lemma {:induction false} ReachableRoundTrip(start: seq<GuildEntry>, ops: seq<Op>, doc: seq<GuildEntry>)
    requires Represents(Run(Loaded(EMPTY, start), ops), doc)
    ensures Loaded(EMPTY, doc) == Run(Loaded(EMPTY, start), ops) <==> NoneLastZero(Loaded(EMPTY, start), ops)
  {
    hide Represents, Loaded, NoneLastZero, NoZeroChannel, NoEmptyText;
    MutatorsKeepTexts(start, ops);
    RoundTrip(Run(Loaded(EMPTY, start), ops), doc);
    NoneLastZeroIs(Loaded(EMPTY, start), ops);
  }

  predicate BindsNoZero(ops: seq<Op>) {
    forall op :: op in ops && op.BindChannel? ==> op.channel != 0
  }

  /** Without a bind to zero there is no such bot. */
  lemma {:induction false} NoZeroBinds(start: seq<GuildEntry>, ops: seq<Op>, k: BotKey)
    requires BindsNoZero(ops)
    ensures LastBind(Loaded(EMPTY, start), ops, k) != Some(0)
  {
    hide Loaded;
    if ops == [] {
      LoadedTextsKept(start);
    } else {
      var op := ops[|ops| - 1];
      assert op in ops;
      assert forall o :: o in ops[..|ops| - 1] ==> o in ops;
      NoZeroBinds(start, ops[..|ops| - 1], k);
    }
  }

  // ---------------------------------------------------------------------------

  class YamlStore {
    var channels: map<BotKey, Id>
    var roles: map<RoleKey, Id>
    var codes: map<Id, string>
    var locales: map<Id, string>
    var disabled: set<BotKey>

    ghost function Abs(): State
      reads this
    {
      State(channels, roles, codes, locales, disabled)
    }

    /** Opens a store on what is on disk; a missing file is an empty document. */
    constructor (doc: seq<GuildEntry>)
      ensures Abs() == Loaded(EMPTY, doc)
    {
      channels, roles, codes, locales, disabled := map[], map[], map[], map[], {};
      new;
      for i := 0 to |doc|
        invariant Abs() == Loaded(EMPTY, doc[..i])
      {
        assert doc[..i + 1][..i] == doc[..i];
        LoadGuild(doc[i]);
      }
      assert doc[..|doc|] == doc;
    }

    method LoadGuild(g: GuildEntry)
      modifies this
      ensures Abs() == PutGuild(old(Abs()), g)
    {
      LoadChannels(g.guild, g.channels);
      LoadRoles(g.guild, g.roles);
      if g.code != "" {
        codes := codes[g.guild := g.code];
      }
      if g.locale != "" {
        locales := locales[g.guild := g.locale];
      }
    }

    method LoadChannels(g: Id, cs: seq<ChannelEntry>)
      modifies this
      ensures Abs() == PutChannels(old(Abs()), g, cs)
    {
      for i := 0 to |cs|
        invariant Abs() == PutChannels(old(Abs()), g, cs[..i])
      {
        assert cs[..i + 1][..i] == cs[..i];
        if cs[i].channel != 0 {
          channels := channels[BotKey(cs[i].user, g) := cs[i].channel];
        }
        if cs[i].disabled {
          disabled := disabled + {BotKey(cs[i].user, g)};
        }
      }
      assert cs[..|cs|] == cs;
    }

    method LoadRoles(g: Id, rs: seq<RoleEntry>)
      modifies this
      ensures Abs() == PutRoles(old(Abs()), g, rs)
    {
      for i := 0 to |rs|
        invariant Abs() == PutRoles(old(Abs()), g, rs[..i])
      {
        assert rs[..i + 1][..i] == rs[..i];
        roles := roles[RoleKey(g, rs[i].role) := rs[i].id];
      }
      assert rs[..|rs|] == rs;
    }

    /** Groups the maps by guild, walking each in any order, and lists the guilds
        in ascending order. */
    method Save() returns (doc: seq<GuildEntry>)
      ensures Represents(Abs(), doc)
    {
      var guilds := Group();
      var ids := SortedIds(guilds.Keys);
      doc := [];
      for i := 0 to |ids|
        invariant |doc| == i && forall j :: 0 <= j < i ==> doc[j] == guilds[ids[j]]
      {
        doc := doc + [guilds[ids[i]]];
      }
      SortedRepresents(Abs(), guilds, ids, doc);
    }

    method Group() returns (guilds: map<Id, GuildEntry>)
      ensures Grouped(Abs(), Everything(Abs()), guilds)
    {
      hide Grouped, EntryOf;
      ghost var s := Abs();
      NothingGrouped(s);
      guilds := GroupChannels(map[]);
      guilds := GroupRoles(guilds);
      guilds := GroupCodes(guilds);
      guilds := GroupLocales(guilds);
      guilds := GroupDisabled(guilds);
    }

    method GroupChannels(given: map<Id, GuildEntry>) returns (guilds: map<Id, GuildEntry>)
      requires Grouped(Abs(), Part({}, {}, {}, {}, {}), given)
      ensures Grouped(Abs(), Part(channels.Keys, {}, {}, {}, {}), guilds)
    {
      hide Grouped;
      guilds := given;
      var todo := channels.Keys;
      assert channels.Keys - todo == {};
      while todo != {}
        invariant todo <= channels.Keys && Grouped(Abs(), Part(channels.Keys - todo, {}, {}, {}, {}), guilds)
        decreases |todo|
      {
        var k :| k in todo;
        var g := EntryFor(guilds, k.guild);
        ghost var (p, q) := (Part(channels.Keys - todo, {}, {}, {}, {}), Part(channels.Keys - (todo - {k}), {}, {}, {}, {}));
        assert q == p.(bound := p.bound + {k});
        ChannelGrouped(Abs(), p, q, guilds, k);
        guilds := guilds[k.guild := g.(channels := g.channels + [ChannelEntry(k.user, channels[k], k in disabled)])];
        todo := todo - {k};
      }
      assert channels.Keys - todo == channels.Keys;
    }

    method GroupRoles(given: map<Id, GuildEntry>) returns (guilds: map<Id, GuildEntry>)
      requires Grouped(Abs(), Part(channels.Keys, {}, {}, {}, {}), given)
      ensures Grouped(Abs(), Part(channels.Keys, roles.Keys, {}, {}, {}), guilds)
    {
      hide Grouped;
      guilds := given;
      var todo := roles.Keys;
      assert roles.Keys - todo == {};
      while todo != {}
        invariant todo <= roles.Keys && Grouped(Abs(), Part(channels.Keys, roles.Keys - todo, {}, {}, {}), guilds)
        decreases |todo|
      {
        var k :| k in todo;
        var g := EntryFor(guilds, k.guild);
        assert roles.Keys - (todo - {k}) == roles.Keys - todo + {k};
        RoleGrouped(Abs(), Part(channels.Keys, roles.Keys - todo, {}, {}, {}), guilds, k);
        guilds := guilds[k.guild := g.(roles := g.roles + [RoleEntry(k.role, roles[k])])];
        todo := todo - {k};
      }
      assert roles.Keys - todo == roles.Keys;
    }

    method GroupCodes(given: map<Id, GuildEntry>) returns (guilds: map<Id, GuildEntry>)
      requires Grouped(Abs(), Part(channels.Keys, roles.Keys, {}, {}, {}), given)
      ensures Grouped(Abs(), Part(channels.Keys, roles.Keys, codes.Keys, {}, {}), guilds)
    {
      hide Grouped;
      guilds := given;
      var todo := codes.Keys;
      ghost var grouped: set<Id> := {};
      while todo != {}
        invariant todo <= codes.Keys && grouped !! todo && grouped + todo == codes.Keys
        invariant Grouped(Abs(), Part(channels.Keys, roles.Keys, grouped, {}, {}), guilds)
        decreases |todo|
      {
        var g :| g in todo;
        CodeGrouped(Abs(), Part(channels.Keys, roles.Keys, grouped, {}, {}), guilds, g);
        guilds := guilds[g := EntryFor(guilds, g).(code := codes[g])];
        todo, grouped := todo - {g}, grouped + {g};
      }
    }

    method GroupLocales(given: map<Id, GuildEntry>) returns (guilds: map<Id, GuildEntry>)
      requires Grouped(Abs(), Part(channels.Keys, roles.Keys, codes.Keys, {}, {}), given)
      ensures Grouped(Abs(), Part(channels.Keys, roles.Keys, codes.Keys, locales.Keys, {}), guilds)
    {
      hide Grouped;
      guilds := given;
      var todo := locales.Keys;
      ghost var grouped: set<Id> := {};
      while todo != {}
        invariant todo <= locales.Keys && grouped !! todo && grouped + todo == locales.Keys
        invariant Grouped(Abs(), Part(channels.Keys, roles.Keys, codes.Keys, grouped, {}), guilds)
        decreases |todo|
      {
        var g :| g in todo;
        LocaleGrouped(Abs(), Part(channels.Keys, roles.Keys, codes.Keys, grouped, {}), guilds, g);
        guilds := guilds[g := EntryFor(guilds, g).(locale := locales[g])];
        todo, grouped := todo - {g}, grouped + {g};
      }
    }

    /** The bots that are disabled without being bound. */
    method GroupDisabled(given: map<Id, GuildEntry>) returns (guilds: map<Id, GuildEntry>)
      requires Grouped(Abs(), Part(channels.Keys, roles.Keys, codes.Keys, locales.Keys, {}), given)
      ensures Grouped(Abs(), Everything(Abs()), guilds)
    {
      hide Grouped, EntryOf;
      guilds := given;
      var todo := disabled;
      ghost var lone: set<BotKey> := {};
      while todo != {}
        invariant todo <= disabled
        invariant forall k :: k in lone <==> k in disabled && k !in todo && k !in channels
        invariant Grouped(Abs(), Part(channels.Keys, roles.Keys, codes.Keys, locales.Keys, lone), guilds)
        decreases |todo|
      {
        var k :| k in todo;
        if k !in channels {
          guilds := GroupLone(guilds, lone, k);
          lone := lone + {k};
        }
        todo := todo - {k};
      }
      assert lone == disabled - channels.Keys;
    }

    method GroupLone(given: map<Id, GuildEntry>, ghost lone: set<BotKey>, k: BotKey) returns (guilds: map<Id, GuildEntry>)
      requires Grouped(Abs(), Part(channels.Keys, roles.Keys, codes.Keys, locales.Keys, lone), given)
      requires k in disabled && k !in channels && k !in lone
      ensures Grouped(Abs(), Part(channels.Keys, roles.Keys, codes.Keys, locales.Keys, lone + {k}), guilds)
    {
      ghost var p := Part(channels.Keys, roles.Keys, codes.Keys, locales.Keys, lone);
      ghost var q := Part(channels.Keys, roles.Keys, codes.Keys, locales.Keys, lone + {k});
      assert PartOf(Abs(), q);
      hide Grouped;
      ChannelGrouped(Abs(), p, q, given, k);
      var g := EntryFor(given, k.guild);
      guilds := given[k.guild := g.(channels := g.channels + [ChannelEntry(k.user, 0, true)])];
    }

    method BindChannel(guild: Id, user: Id, channel: Id)
      modifies this`channels
      ensures Abs() == Apply(old(Abs()), Op.BindChannel(guild, user, channel))
    {
      channels := channels[BotKey(user, guild) := channel];
    }

    method UnbindChannel(guild: Id, user: Id)
      modifies this`channels
      ensures Abs() == Apply(old(Abs()), Op.UnbindChannel(guild, user))
    {
      channels := channels - {BotKey(user, guild)};
    }

    method GetBoundChannel(guild: Id, user: Id) returns (channel: Option<Id>)
      ensures channel == Lookup(channels, BotKey(user, guild))
    {
      channel := if BotKey(user, guild) in channels then Some(channels[BotKey(user, guild)]) else None;
    }

    method BindRole(guild: Id, role: string, id: Id)
      modifies this`roles
      ensures Abs() == Apply(old(Abs()), Op.BindRole(guild, role, id))
    {
      roles := roles[RoleKey(guild, role) := id];
    }

    method UnbindRole(guild: Id, role: string)
      modifies this`roles
      ensures Abs() == Apply(old(Abs()), Op.UnbindRole(guild, role))
    {
      roles := roles - {RoleKey(guild, role)};
    }

    /** `draws` are the random codes in the order they come; none when they run
        out before an unused one. */
    method GetOrCreateAllyCode(guild: Id, draws: seq<Code>) returns (code: Option<string>)
      modifies this`codes
      ensures Abs() == Apply(old(Abs()), CreateCode(guild, draws))
      ensures code.Some? <==> guild in codes
      ensures code.Some? ==> code.value == codes[guild]
      ensures code.Some? <==> old(guild in codes) || exists d :: d in draws && d !in old(codes.Values)
      ensures old(guild in codes) ==> codes == old(codes)
      ensures code.Some? && old(guild !in codes) ==> code.value in draws && code.value !in old(codes.Values)
    {
      if guild in codes {
        return Some(codes[guild]);
      }
      var used := codes.Values;
      for i := 0 to |draws|
        invariant codes == old(codes) && FirstUnused(used, draws) == FirstUnused(used, draws[i..])
        invariant forall k :: 0 <= k < i ==> draws[k] in used
      {
        assert draws[i..][0] == draws[i] && draws[i..][1..] == draws[i + 1..];
        if draws[i] !in used {
          codes := codes[guild := draws[i]];
          return Some(draws[i]);
        }
      }
      assert draws[|draws|..] == [];
      return None;
    }

    method BindLocale(guild: Id, locale: string)
      modifies this`locales
      ensures Abs() == Apply(old(Abs()), Op.BindLocale(guild, locale))
    {
      if locale == "" {
        locales := locales - {guild};
      } else {
        locales := locales[guild := locale];
      }
    }

    method UnbindLocale(guild: Id)
      modifies this`locales
      ensures Abs() == Apply(old(Abs()), Op.UnbindLocale(guild))
    {
      locales := locales - {guild};
    }

    method SetSpeakerEnabled(guild: Id, user: Id, enabled: bool)
      modifies this`disabled
      ensures Abs() == Apply(old(Abs()), SetEnabled(guild, user, enabled))
    {
      if enabled {
        disabled := disabled - {BotKey(user, guild)};
      } else {
        disabled := disabled + {BotKey(user, guild)};
      }
    }
  }

  method Perform(store: YamlStore, op: Op)
    modifies store
    ensures store.Abs() == Apply(old(store.Abs()), op)
  {
    match op
    case BindChannel(g, u, c) => store.BindChannel(g, u, c);
    case UnbindChannel(g, u) => store.UnbindChannel(g, u);
    case BindRole(g, r, id) => store.BindRole(g, r, id);
    case UnbindRole(g, r) => store.UnbindRole(g, r);
    case CreateCode(g, draws) => var code := store.GetOrCreateAllyCode(g, draws);
    case BindLocale(g, l) => store.BindLocale(g, l);
    case UnbindLocale(g) => store.UnbindLocale(g);
    case SetEnabled(g, u, on) => store.SetSpeakerEnabled(g, u, on);
  }

  /** One life of a store: opened from a document, used, and saved. The new
      document has the last word on every key, and the next life starts exactly
      where this one ended unless a bot was last bound to channel zero. */
  method Drive(start: seq<GuildEntry>, ops: seq<Op>) returns (doc: seq<GuildEntry>)
    ensures Represents(Run(Loaded(EMPTY, start), ops), doc)
    ensures Loaded(EMPTY, doc) == Run(Loaded(EMPTY, start), ops) <==> NoneLastZero(Loaded(EMPTY, start), ops)
    ensures BindsNoZero(ops) ==> Loaded(EMPTY, doc) == Run(Loaded(EMPTY, start), ops)
  {
    hide Represents, Loaded, Apply;
    var store := new YamlStore(start);
    var i := 0;
    while i < |ops|
      invariant i <= |ops| && fresh(store) && store.Abs() == Run(Loaded(EMPTY, start), ops[..i])
    {
      assert ops[..i + 1][..i] == ops[..i];
      Perform(store, ops[i]);
      i := i + 1;
    }
    assert ops[..|ops|] == ops;
    doc := store.Save();
    if BindsNoZero(ops) {
      forall k
        ensures LastBind(Loaded(EMPTY, start), ops, k) != Some(0)
      {
        NoZeroBinds(start, ops, k);
      }
    }
    ReachableRoundTrip(start, ops, doc);
  }

  /** The ids in ascending order, smallest first. */
  method SortedIds(ids: set<Id>) returns (r: seq<Id>)
    ensures forall i, j :: 0 <= i < j < |r| ==> r[i] < r[j]
    ensures forall id :: id in r <==> id in ids
  {
    r := [];
    var todo := ids;
    while todo != {}
      invariant todo <= ids
      invariant forall i, j :: 0 <= i < j < |r| ==> r[i] < r[j]
      invariant forall id :: id in ids <==> id in todo || id in r
      invariant forall i, id :: 0 <= i < |r| && id in todo ==> r[i] < id
      decreases |todo|
    {
      var least :| least in todo;
      var rest := todo - {least};
      while rest != {}
        invariant rest <= todo && least in todo && forall id :: id in todo && id !in rest ==> least <= id
        decreases |rest|
      {
        var id :| id in rest;
        if id < least {
          least := id;
        }
        rest := rest - {id};
      }
      r := r + [least];
      todo := todo - {least};
    }
  }

  lemma SortedRepresents(s: State, guilds: map<Id, GuildEntry>, ids: seq<Id>, doc: seq<GuildEntry>)
    requires Grouped(s, Everything(s), guilds)
    requires forall i, j :: 0 <= i < j < |ids| ==> ids[i] < ids[j]
    requires forall id :: id in ids <==> id in guilds
    requires |doc| == |ids| && forall i :: 0 <= i < |doc| ==> ids[i] in guilds && doc[i] == guilds[ids[i]]
    ensures Represents(s, doc)
  {
    hide Mentions, GuildOk;
    forall g
      ensures Lists(doc, g) <==> Mentions(Everything(s), g)
    {
      if g in guilds {
        var i :| 0 <= i < |ids| && ids[i] == g;
        assert doc[i].guild == g;
      }
    }
  }
}
