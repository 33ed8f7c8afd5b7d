/**
  Bans against logins when neither is one step: a login reads the role and registers later, a ban
  updates the role and looks for the online connection later. For one user, this module says exactly
  which step leaves the user banned, online on an open connection, and overlooked by every ban.
 */
module BanRace {
  import opened Basics

  /** An online entry, with the moments at which its login read the role and registered. */
  datatype Entry = Entry(conn: ConnId, checked: nat, registered: nat)

  /**
    `banned` holds the moment since which the role is "banned", `checked` the logins that passed the
    check and have yet to register, `halfway` the bans that have yet to look for the connection,
    `kicked` the moment at which a ban last did.
   */
  datatype State = State(banned: Option<nat>, online: Option<Entry>, closed: set<ConnId>, checked: map<ConnId, nat>,
                         halfway: nat, kicked: nat, clock: nat)

  datatype Event = Check(c: ConnId) | Register(c: ConnId) | Update | Kick | Unban | Unregister

  const START := State(None, None, {}, map[], 0, 0, 1)

  predicate Possible(s: State, e: Event) {
    match e
    case Register(c) => c in s.checked
    case Kick => s.halfway > 0
    case _ => true
  }

  function Effect(s: State, e: Event): State
    requires Possible(s, e)
  {
    match e
    case Check(c) => if s.banned.Some? then s.(closed := s.closed + {c}) else s.(checked := s.checked[c := s.clock])
    case Register(c) => s.(online := Some(Entry(c, s.checked[c], s.clock)), checked := s.checked - {c})
    case Update => s.(banned := if s.banned.Some? then s.banned else Some(s.clock), halfway := s.halfway + 1)
    case Kick =>
      s.(closed := if s.online.Some? then s.closed + {s.online.value.conn} else s.closed,
         halfway := s.halfway - 1, kicked := s.clock)
    case Unban => s.(banned := None)
    case Unregister => s.(online := None)
  }

  function Step(s: State, e: Event): State
    requires Possible(s, e)
  {
    Effect(s, e).(clock := s.clock + 1)
  }

  ghost predicate ValidRun(evs: seq<Event>)
    decreases |evs|, 0
  {
    evs == [] || (var n := |evs| - 1; ValidRun(evs[..n]) && Possible(After(evs[..n]), evs[n]))
  }

  ghost function After(evs: seq<Event>): State
    requires ValidRun(evs)
    decreases |evs|, 1
  {
    if evs == [] then START else var n := |evs| - 1; Step(After(evs[..n]), evs[n])
  }

  /** The user is banned, and online on a connection that nobody has closed. */
  predicate BannedAndOpen(s: State) {
    s.banned.Some? && s.online.Some? && s.online.value.conn !in s.closed
  }

  predicate Dated(s: State) {
    && s.kicked < s.clock
    && (forall c :: c in s.checked ==> s.checked[c] < s.clock)
    && (s.online.Some? ==> s.online.value.checked < s.online.value.registered < s.clock)
    && (s.banned.Some? ==> s.banned.value < s.clock)
  }

  /** Who passed the check did so before the ban; who is still open registered after the last ban looked. */
  predicate Ordered(s: State) {
    && (s.banned.Some? ==> forall c :: c in s.checked ==> s.checked[c] < s.banned.value)
    && (s.banned.Some? && s.online.Some? ==> s.online.value.checked < s.banned.value)
    && (s.banned.Some? ==> s.halfway > 0 || s.banned.value < s.kicked)
    && (s.online.Some? ==> s.kicked < s.online.value.registered || s.online.value.conn in s.closed)
  }

  lemma {:induction false} RunOrdered(evs: seq<Event>)
    requires ValidRun(evs)
    ensures Dated(After(evs)) && Ordered(After(evs))
  {
    if evs != [] {
      RunOrdered(evs[..|evs| - 1]);
    }
  }

  // ---- the step that does it ----------------------------------------------------------------

  /** What bans are for: once no ban is halfway, a banned user is not online on an open connection. */
  predicate RuleHolds(s: State) {
    s.halfway == 0 ==> !BannedAndOpen(s)
  }

  /** A login that registers on an open connection although the user is banned and every ban has done its work. */
  predicate RegistersTooLate(s: State, e: Event) {
    e.Register? && s.banned.Some? && s.halfway == 0 && e.c !in s.closed
  }

  /** Main result: a possible step breaks the rule exactly when it is such a registration. */
  lemma BreaksRuleIff(s: State, e: Event)
    requires Possible(s, e) && RuleHolds(s)
    ensures !RuleHolds(Step(s, e)) <==> RegistersTooLate(s, e)
  {
  }

  /** The rule held at the start and after each event. */
  ghost predicate RuleHeld(evs: seq<Event>)
    requires ValidRun(evs)
    decreases |evs|
  {
    RuleHolds(After(evs)) && (evs == [] || RuleHeld(evs[..|evs| - 1]))
  }

  ghost predicate NobodyRegistersTooLate(evs: seq<Event>)
    requires ValidRun(evs)
    decreases |evs|
  {
    evs == [] ||
    (var n := |evs| - 1; NobodyRegistersTooLate(evs[..n]) && !RegistersTooLate(After(evs[..n]), evs[n]))
  }

  /** Main result: over a whole run the rule holds at every moment exactly when no login registers too late. */
  lemma {:induction false} RuleHeldIff(evs: seq<Event>)
    requires ValidRun(evs)
    ensures RuleHeld(evs) <==> NobodyRegistersTooLate(evs)
    decreases |evs|
  {
    if evs != [] {
      var n := |evs| - 1;
      RuleHeldIff(evs[..n]);
      if RuleHeld(evs[..n]) {
        BreaksRuleIff(After(evs[..n]), evs[n]);
      }
    }
  }

  /** Such a login had read the role before the ban: a later check would have refused it. */
  lemma LateMeansCheckedEarly(evs: seq<Event>, e: Event)
    requires ValidRun(evs) && Possible(After(evs), e) && RegistersTooLate(After(evs), e)
    ensures var s := After(evs); s.checked[e.c] < s.banned.value < s.kicked
  {
    RunOrdered(evs);
  }

  /**
    The order of the moments that follows, for any run: when a banned user is online on an open
    connection and no ban is halfway, its login read the role before the ban, and registered after
    the last ban had looked for it.
   */
  lemma OnlyThisRace(evs: seq<Event>)
    requires ValidRun(evs) && BannedAndOpen(After(evs)) && After(evs).halfway == 0
    ensures var s, e := After(evs), After(evs).online.value;
            e.checked < s.banned.value < s.kicked < e.registered
  {
    RunOrdered(evs);
  }

  /** It happens: check, update, kick, register, whoever the connection is. */
  lemma TheRaceHappens(c: ConnId)
    ensures var evs := [Check(c), Update, Kick, Register(c)];
            ValidRun(evs) && After(evs).halfway == 0 && BannedAndOpen(After(evs))
  {
    var evs := [Check(c), Update, Kick, Register(c)];
    assert evs[..3] == [Check(c), Update, Kick] && evs[..3][..2] == [Check(c), Update];
    assert evs[..3][..2][..1] == [Check(c)] && evs[..3][..2][..1][..0] == [];
    assert After([Check(c)]) == Step(START, Check(c));
    assert After([Check(c), Update]) == Step(Step(START, Check(c)), Update);
    assert After([Check(c), Update, Kick]) == Step(Step(Step(START, Check(c)), Update), Kick);
  }
}
