/** get_match_timeline_by_id: the participant table, the `[MM:SS]` clock of a
    frame, the dispatch on the five recognised event types, and the walk over
    frames and then events that collects one line per recognised event. */
module Timeline {
  import opened PyRuntime
  import opened Text
  import opened Regions
  import opened RiotRequest
  import Tools

  // ------------------------------------------------------------------ data

  /** A timeline event, by its `type` field. Every field is read with `.get`
      and a default, so each may be absent. `Other` is any other type, or
      none. */
  datatype Event =
    | ChampionKill(killerId: Option<int>, victimId: Option<int>, assistingParticipantIds: Option<seq<int>>)
    | BuildingKill(teamId: Option<int>, buildingType: Option<string>, laneType: Option<string>)
    | EliteMonsterKill(killerId: Option<int>, monsterType: Option<string>, monsterSubType: Option<string>)
    | ItemPurchased(participantId: Option<int>, itemId: Option<int>)
    | SkillLevelUp(participantId: Option<int>, skillSlot: Option<int>)
    | Other

  datatype Frame = Frame(timestamp: Option<int>, events: Option<seq<Event>>)

  /** `participantId` is read with `[]`, the names with `.get`. */
  datatype Participant = Participant(
    participantId: Option<int>,
    riotIdGameName: Option<string>,
    summonerName: Option<string>,
    championName: Option<string>)

  datatype TimelineInfo = TimelineInfo(
    frameInterval: Option<int>,
    frames: Option<seq<Frame>>,
    participants: Option<seq<Participant>>)

  datatype TimelineDoc = TimelineDoc(info: Option<TimelineInfo>)

  /** `data.get("info", {})` when the document has no "info". */
  const NoInfo := TimelineInfo(None, None, None)

  // ----------------------------------------------------- participant table

  /** One value of `participant_map`. */
  datatype Entry = Entry(name: string, champion: string)

  /** riotIdGameName, else summonerName (each only when truthy), else "Player <id>". */
  function DisplayName(id: int, p: Participant): string {
    if Truthy(p.riotIdGameName) then p.riotIdGameName.value
    else if Truthy(p.summonerName) then p.summonerName.value
    else "Player " + Decimal(id)
  }

  function EntryOf(id: int, p: Participant): Entry {
    Entry(DisplayName(id, p), p.championName.GetOr("Unknown"))
  }

  /** The participant table after the participants ps, in order: a later
      participant with the same id replaces an earlier one, and a participant
      without an id raises KeyError. */
  function Table(ps: seq<Participant>): Outcome<map<int, Entry>> {
    if |ps| == 0 then Returned(map[])
    else
      var last := ps[|ps| - 1];
      match Table(ps[..|ps| - 1])
      case Raised(e) => Raised(e)
      case Returned(t) =>
        if last.participantId.None? then Raised(KeyError)
        else Returned(t[last.participantId.value := EntryOf(last.participantId.value, last)])
  }

  /** No participant after position i has the same id as ps[i]. */
  predicate LastWithId(ps: seq<Participant>, i: int)
    requires 0 <= i < |ps|
  {
    forall j :: i < j < |ps| ==> ps[j].participantId != ps[i].participantId
  }

  /** Building the table raises KeyError exactly when some participant has
      no id. */
  lemma {:induction false} TableRaises(ps: seq<Participant>)
    ensures Table(ps).Raised? <==> exists i :: 0 <= i < |ps| && ps[i].participantId.None?
    ensures Table(ps).Raised? ==> Table(ps).exc == KeyError
  {
    if |ps| > 0 {
      var n := |ps| - 1;
      TableRaises(ps[..n]);
      assert forall i :: 0 <= i < n ==> ps[..n][i] == ps[i];
    }
  }

  /** The keys of the table are exactly the participants' ids. */
  lemma {:induction false} TableKeys(ps: seq<Participant>)
    requires Table(ps).Returned?
    ensures forall id :: id in Table(ps).value <==> exists i :: 0 <= i < |ps| && ps[i].participantId == Some(id)
  {
    if |ps| > 0 {
      var n := |ps| - 1;
      TableKeys(ps[..n]);
      assert forall i :: 0 <= i < n ==> ps[..n][i] == ps[i];
    }
  }

  /** Each id maps to the entry of the last participant that carries it: a
      later participant with the same id replaces an earlier one. */
  lemma {:induction false} TableLastWins(ps: seq<Participant>, i: int)
    requires Table(ps).Returned? && 0 <= i < |ps| && LastWithId(ps, i)
    ensures ps[i].participantId.Some? && ps[i].participantId.value in Table(ps).value
    ensures Table(ps).value[ps[i].participantId.value] == EntryOf(ps[i].participantId.value, ps[i])
  {
    var n := |ps| - 1;
    TableRaises(ps);
    if i < n {
      var init := ps[..n];
      assert init[i] == ps[i];
      assert LastWithId(init, i);
      TableLastWins(init, i);
    }
  }

  /** The participant_map loop of get_match_timeline_by_id. */
  method ParticipantMap(ps: seq<Participant>) returns (r: Outcome<map<int, Entry>>)
    ensures r == Table(ps)
  {
    var table: map<int, Entry> := map[];
    for i := 0 to |ps|
      invariant Table(ps[..i]) == Returned(table)
    {
      var p := ps[i];
      assert ps[..i + 1][..i] == ps[..i];
      if p.participantId.None? {
        assert Table(ps[..i + 1]) == Raised(KeyError);
        TablePrefixRaised(ps, i + 1);
        return Raised(KeyError);
      }
      var pid := p.participantId.value;
      table := table[pid := EntryOf(pid, p)];
    }
    assert ps[..|ps|] == ps;
    return Returned(table);
  }

  /** Once building the table raises, it raises for every longer list. */
  lemma {:induction false} TablePrefixRaised(ps: seq<Participant>, n: nat)
    requires n <= |ps| && Table(ps[..n]).Raised?
    ensures Table(ps) == Table(ps[..n])
    decreases |ps| - n
  {
    if n < |ps| {
      assert ps[..n + 1][..n] == ps[..n];
      TablePrefixRaised(ps, n + 1);
    } else {
      assert ps[..n] == ps;
    }
  }

  /** get_label: "<name>(<champion>)", or "?(?)" for an id not in the table. */
  function Label(table: map<int, Entry>, pid: int): (r: string)
    ensures pid !in table ==> r == "?(?)"
    ensures pid in table ==> table[pid].name + "(" <= r && r[|r| - 1] == ')'
  {
    if pid in table then table[pid].name + "(" + table[pid].champion + ")" else "?(?)"
  }

  /** The label of an id names the last participant that carries it, and an
      id no participant carries is labelled "?(?)". */
  lemma LabelOfTable(ps: seq<Participant>, pid: int)
    requires Table(ps).Returned?
    ensures (forall i :: 0 <= i < |ps| ==> ps[i].participantId != Some(pid)) ==> Label(Table(ps).value, pid) == "?(?)"
    ensures forall i :: 0 <= i < |ps| && ps[i].participantId == Some(pid) && LastWithId(ps, i) ==>
      Label(Table(ps).value, pid) == DisplayName(pid, ps[i]) + "(" + ps[i].championName.GetOr("Unknown") + ")"
  {
    TableKeys(ps);
    forall i | 0 <= i < |ps| && ps[i].participantId == Some(pid) && LastWithId(ps, i) {
      TableLastWins(ps, i);
    }
  }

  // ------------------------------------------------------ small lookups

  const TeamNames: map<int, string> := map[100 := "Blue Team", 200 := "Red Team"]

  const SlotLetters: map<int, string> := map[1 := "Q", 2 := "W", 3 := "E", 4 := "R"]

  /** `team_map[team]` */
  function TeamName(team: int): (r: Outcome<string>)
    ensures r.Raised? <==> team != 100 && team != 200
    ensures r.Raised? ==> r.exc == KeyError
    ensures team == 100 ==> r == Returned("Blue Team")
    ensures team == 200 ==> r == Returned("Red Team")
  {
    Index(TeamNames, team)
  }

  /** `slot_map.get(skill_slot, str(skill_slot))` */
  function SkillName(slot: int): (r: string)
    ensures slot == 1 ==> r == "Q"
    ensures slot == 2 ==> r == "W"
    ensures slot == 3 ==> r == "E"
    ensures slot == 4 ==> r == "R"
    ensures (|r| == 1 && 'A' <= r[0] <= 'Z') <==> 1 <= slot <= 4
  {
    if slot in SlotLetters then SlotLetters[slot] else Decimal(slot)
  }

  /** Different skill slots are shown differently: a letter Q/W/E/R is never
      the decimal text of another slot. */
  lemma SkillNameInjective(a: int, b: int)
    requires SkillName(a) == SkillName(b)
    ensures a == b
  {
    if a !in SlotLetters && b !in SlotLetters {
      DecimalInjective(a, b);
    }
  }

  // ------------------------------------------------------------- the clock

  /** The `[MM:SS]` prefix of a frame: whole seconds, then minutes and
      seconds. Python's `//` and `%` agree with Dafny's `/` and `%` for a
      positive divisor. */
  function Clock(millis: int): (r: string)
    ensures |r| > 4 && r[0] == '[' && r[|r| - 1] == ']'
  {
    var t := millis / 1000;
    "[" + Pad2(t / 60) + ":" + Pad2(t % 60) + "]"
  }

  lemma ClockExamples()
    ensures Clock(125000) == "[02:05]"
    ensures Clock(0) == "[00:00]"
  {
    assert Digits(2) == "2" && Digits(5) == "5" && Digits(0) == "0";
  }

  /** Below 100 minutes the clock is seven characters and its two fields read
      back as the minutes and the seconds (under 60) of the timestamp. */
  lemma ClockReadsBack(millis: int)
    requires 0 <= millis < 6000000
    ensures |Clock(millis)| == 7
    ensures AllDigits(Clock(millis)[1..3]) && AllDigits(Clock(millis)[4..6])
    ensures ParseDigits(Clock(millis)[4..6]) < 60
    ensures ParseDigits(Clock(millis)[1..3]) * 60 + ParseDigits(Clock(millis)[4..6]) == millis / 1000
  {
    var t := millis / 1000;
    Pad2Inverse(t / 60);
    Pad2Inverse(t % 60);
    var c := Clock(millis);
    assert c[1..3] == Pad2(t / 60);
    assert c[4..6] == Pad2(t % 60);
  }

  // -------------------------------------------------------- event lines

  /** A team id the team map does not hold: the BUILDING line raises KeyError. */
  predicate UnknownTeam(e: Event) {
    e.BuildingKill? && e.teamId.GetOr(0) !in TeamNames
  }

  /** The lines one event adds under the given clock prefix: none for an
      unrecognised type, exactly one starting with the prefix for a recognised
      one, and KeyError for a building kill of an unknown team. */
  function EventLine(clock: string, e: Event, table: map<int, Entry>): (r: Outcome<seq<string>>)
    ensures e.Other? ==> r == Returned([])
    ensures r.Raised? <==> UnknownTeam(e)
    ensures r.Raised? ==> r.exc == KeyError
    ensures !e.Other? && r.Returned? ==> |r.value| == 1 && clock <= r.value[0]
  {
    if e.Other? then Returned([])
    else
      match EventText(e, table)
      case Raised(exc) => Raised(exc)
      case Returned(text) => Returned([clock + text])
  }

  /** The line of a recognised event begins with the clock and then its kind. */
  lemma EventLineKind(clock: string, e: Event, table: map<int, Entry>)
    requires !e.Other? && EventLine(clock, e, table).Returned?
    ensures clock + Tag(e) <= EventLine(clock, e, table).value[0]
  {
    var text := EventText(e, table).value;
    assert EventLine(clock, e, table).value[0] == clock + text;
    assert (clock + text)[..|clock + Tag(e)|] == clock + text[..|Tag(e)|];
  }

  /** The kind of line a recognised event produces: the text right after the
      clock. */
  function Tag(e: Event): string
    requires !e.Other?
  {
    match e
    case ChampionKill(_, _, _) => " KILL - Player "
    case BuildingKill(_, _, _) => " BUILDING - Team "
    case EliteMonsterKill(_, _, _) => " MONSTER - Player "
    case ItemPurchased(_, _) => " ITEM - Player "
    case SkillLevelUp(_, _) => " SKILL - Player "
  }

  /** What follows the clock on the line of a recognised event. */
  function EventText(e: Event, table: map<int, Entry>): (r: Outcome<string>)
    requires !e.Other?
    ensures r.Raised? <==> UnknownTeam(e)
    ensures r.Raised? ==> r.exc == KeyError
    ensures r.Returned? ==> Tag(e) <= r.value
  {
    match e
    case ChampionKill(killer, victim, assists) =>
      var rest := Label(table, killer.GetOr(0)) + " killed Player " + Label(table, victim.GetOr(0))
                  + " (assists: " + ReprInts(assists.GetOr([])) + ")";
      PrefixOfAppend(" KILL - Player ", rest);
      Returned(" KILL - Player " + rest)
    case BuildingKill(team, building, lane) =>
      (match TeamName(team.GetOr(0))
       case Raised(exc) => Raised(exc)
       case Returned(name) =>
         var rest := name + " lost " + building.GetOr("") + " (" + lane.GetOr("") + ")";
         PrefixOfAppend(" BUILDING - Team ", rest);
         Returned(" BUILDING - Team " + rest))
    case EliteMonsterKill(killer, monster, subtype) =>
      var rest := Label(table, killer.GetOr(0)) + " killed " + monster.GetOr("") + " " + subtype.GetOr("");
      PrefixOfAppend(" MONSTER - Player ", rest);
      Returned(" MONSTER - Player " + rest)
    case ItemPurchased(participant, item) =>
      var rest := Label(table, participant.GetOr(0)) + " purchased item " + Decimal(item.GetOr(0));
      PrefixOfAppend(" ITEM - Player ", rest);
      Returned(" ITEM - Player " + rest)
    case SkillLevelUp(participant, slot) =>
      var rest := Label(table, participant.GetOr(0)) + " leveled up " + SkillName(slot.GetOr(0));
      PrefixOfAppend(" SKILL - Player ", rest);
      Returned(" SKILL - Player " + rest)
  }

  // ------------------------------------------------- the event stream

  /** An event together with the timestamp of the frame it came from. */
  datatype Stamped = Stamped(millis: int, event: Event)

  /** Events, in order, each stamped with one timestamp. */
  function Stamps(millis: int, events: seq<Event>): seq<Stamped> {
    seq(|events|, k requires 0 <= k < |events| => Stamped(millis, events[k]))
  }

  /** The events of one frame, each with the frame's timestamp
      (`frame.get("timestamp", 0)`, `frame.get("events", [])`). */
  function FrameEvents(f: Frame): seq<Stamped> {
    Stamps(f.timestamp.GetOr(0), f.events.GetOr([]))
  }

  /** All events of the timeline in frame order, then event order. */
  function Stamp(frames: seq<Frame>): seq<Stamped> {
    if |frames| == 0 then [] else Stamp(frames[..|frames| - 1]) + FrameEvents(frames[|frames| - 1])
  }

  lemma {:induction false} StampAppend(a: seq<Frame>, b: seq<Frame>)
    ensures Stamp(a + b) == Stamp(a) + Stamp(b)
    decreases |b|
  {
    if |b| == 0 {
      assert a + b == a;
    } else {
      var n := |b| - 1;
      assert (a + b)[..|a + b| - 1] == a + b[..n];
      assert (a + b)[|a + b| - 1] == b[n];
      StampAppend(a, b[..n]);
      assert Stamp(a + b) == (Stamp(a) + Stamp(b[..n])) + FrameEvents(b[n]);
    }
  }

  /** The recognised events of a stream, in order. */
  function Kept(s: seq<Stamped>): seq<Stamped> {
    if |s| == 0 then []
    else if s[|s| - 1].event.Other? then Kept(s[..|s| - 1])
    else Kept(s[..|s| - 1]) + [s[|s| - 1]]
  }

  /** The lines of `a` followed by those of `b`; the first exception escapes. */
  function Cat(a: Outcome<seq<string>>, b: Outcome<seq<string>>): Outcome<seq<string>> {
    if a.Raised? then a else if b.Raised? then b else Returned(a.value + b.value)
  }

  lemma CatAssociative(x: Outcome<seq<string>>, y: Outcome<seq<string>>, z: Outcome<seq<string>>)
    ensures Cat(Cat(x, y), z) == Cat(x, Cat(y, z))
  {
    if x.Returned? && y.Returned? && z.Returned? {
      assert (x.value + y.value) + z.value == x.value + (y.value + z.value);
    }
  }

  lemma CatEmpty(x: Outcome<seq<string>>)
    ensures Cat(x, Returned([])) == x
  {
    if x.Returned? {
      assert x.value + [] == x.value;
    }
  }

  /** How one stamped event is turned into lines. */
  type Render = Stamped -> Outcome<seq<string>>

  /** The loop body of the summariser: each event rendered under the clock of
      its frame and the participant table. */
  function EventOf(table: map<int, Entry>): Render {
    (x: Stamped) => EventLine(Clock(x.millis), x.event, table)
  }

  /** What the loop body promises of every event (EventLine's contract). */
  ghost predicate Sound(render: Render) {
    forall x: Stamped {:trigger render(x)} ::
      && (x.event.Other? ==> render(x) == Returned([]))
      && (render(x).Raised? <==> UnknownTeam(x.event))
      && (render(x).Raised? ==> render(x).exc == KeyError)
      && (!x.event.Other? && render(x).Returned? ==> |render(x).value| == 1 && Clock(x.millis) <= render(x).value[0])
  }

  lemma EventOfSound(table: map<int, Entry>)
    ensures Sound(EventOf(table))
  {
    forall x: Stamped
      ensures var o := EventLine(Clock(x.millis), x.event, table);
              && (x.event.Other? ==> o == Returned([]))
              && (o.Raised? <==> UnknownTeam(x.event))
              && (o.Raised? ==> o.exc == KeyError)
              && (!x.event.Other? && o.Returned? ==> |o.value| == 1 && Clock(x.millis) <= o.value[0])
    {
    }
  }

  /** The walk over a stream, one rendered event after the other; the first
      exception escapes. */
  function Walk(s: seq<Stamped>, render: Render): Outcome<seq<string>> {
    if |s| == 0 then Returned([]) else Cat(Walk(s[..|s| - 1], render), render(s[|s| - 1]))
  }

  /** The event lines of a stream. */
  function Lines(s: seq<Stamped>, table: map<int, Entry>): Outcome<seq<string>> {
    Walk(s, EventOf(table))
  }

  lemma {:induction false} WalkAppend(a: seq<Stamped>, b: seq<Stamped>, render: Render)
    ensures Walk(a + b, render) == Cat(Walk(a, render), Walk(b, render))
    decreases |b|
  {
    if |b| == 0 {
      assert a + b == a;
      CatEmpty(Walk(a, render));
    } else {
      var n := |b| - 1;
      assert (a + b)[..|a + b| - 1] == a + b[..n];
      assert (a + b)[|a + b| - 1] == b[n];
      WalkAppend(a, b[..n], render);
      CatAssociative(Walk(a, render), Walk(b[..n], render), render(b[n]));
    }
  }

  lemma LinesAppend(a: seq<Stamped>, b: seq<Stamped>, table: map<int, Entry>)
    ensures Lines(a + b, table) == Cat(Lines(a, table), Lines(b, table))
  {
    WalkAppend(a, b, EventOf(table));
  }

  lemma {:induction false} WalkRaises(s: seq<Stamped>, render: Render)
    requires Sound(render)
    ensures Walk(s, render).Raised? <==> exists k :: 0 <= k < |s| && UnknownTeam(s[k].event)
    ensures Walk(s, render).Raised? ==> Walk(s, render).exc == KeyError
  {
    if |s| > 0 {
      var n := |s| - 1;
      var init := s[..n];
      assert forall k :: 0 <= k < n ==> init[k] == s[k];
      WalkRaises(init, render);
      if Walk(init, render).Raised? {
        var k :| 0 <= k < n && UnknownTeam(init[k].event);
        assert UnknownTeam(s[k].event);
      }
      assert render(s[n]).Raised? <==> UnknownTeam(s[n].event);
    }
  }

  /** The walk over the event stream raises KeyError exactly when some
      building kill names an unknown team. */
  lemma LinesRaise(s: seq<Stamped>, table: map<int, Entry>)
    ensures Lines(s, table).Raised? <==> exists k :: 0 <= k < |s| && UnknownTeam(s[k].event)
    ensures Lines(s, table).Raised? ==> Lines(s, table).exc == KeyError
  {
    EventOfSound(table);
    WalkRaises(s, EventOf(table));
  }

  lemma {:induction false} WalkOfKept(s: seq<Stamped>, render: Render)
    requires Sound(render)
    requires Walk(s, render).Returned?
    ensures |Walk(s, render).value| == |Kept(s)|
    ensures forall k :: 0 <= k < |Kept(s)| ==> render(Kept(s)[k]) == Returned([Walk(s, render).value[k]])
  {
    if |s| > 0 {
      var n := |s| - 1;
      var init := s[..n];
      var x := s[n];
      var o := render(x);
      assert Walk(s, render) == Cat(Walk(init, render), o);
      WalkOfKept(init, render);
      var ls := Walk(init, render).value;
      if x.event.Other? {
        assert o == Returned([]);
        assert Walk(s, render).value == ls + [] == ls;
        assert Kept(s) == Kept(init);
      } else {
        assert |o.value| == 1;
        assert Walk(s, render).value == ls + o.value;
        var ks := Kept(init);
        assert Kept(s) == ks + [x];
        assert o.value == [o.value[0]];
        forall k | 0 <= k < |ks| + 1
          ensures render((ks + [x])[k]) == Returned([(ls + o.value)[k]])
        {
          if k == |ks| {
            assert (ks + [x])[k] == x && (ls + o.value)[k] == o.value[0];
          } else {
            assert (ks + [x])[k] == ks[k] && (ls + o.value)[k] == ls[k];
          }
        }
      }
    }
  }

  /** The timeline's event lines are, one for one and in order, the lines of
      the recognised events; unrecognised events add nothing. */
  lemma LinesOfKept(s: seq<Stamped>, table: map<int, Entry>)
    requires Lines(s, table).Returned?
    ensures |Lines(s, table).value| == |Kept(s)|
    ensures forall k :: 0 <= k < |Kept(s)| ==>
      EventLine(Clock(Kept(s)[k].millis), Kept(s)[k].event, table) == Returned([Lines(s, table).value[k]])
  {
    EventOfSound(table);
    WalkOfKept(s, EventOf(table));
    forall k | 0 <= k < |Kept(s)|
      ensures EventLine(Clock(Kept(s)[k].millis), Kept(s)[k].event, table) == Returned([Lines(s, table).value[k]])
    {
      assert EventOf(table)(Kept(s)[k]) == EventLine(Clock(Kept(s)[k].millis), Kept(s)[k].event, table);
    }
  }

  lemma WalkIgnoresOther(a: seq<Stamped>, x: Stamped, b: seq<Stamped>, render: Render)
    requires Sound(render)
    requires x.event.Other?
    ensures Walk(a + [x] + b, render) == Walk(a + b, render)
  {
    assert render(x) == Returned([]);
    assert Walk([x], render) == Cat(Walk([], render), render(x));
    WalkAppend(a, [x], render);
    CatEmpty(Walk(a, render));
    WalkAppend(a + [x], b, render);
    WalkAppend(a, b, render);
  }

  /** An unrecognised event leaves the lines of its siblings as they were. */
  lemma IgnoresOther(a: seq<Stamped>, x: Stamped, b: seq<Stamped>, table: map<int, Entry>)
    requires x.event.Other?
    ensures Lines(a + [x] + b, table) == Lines(a + b, table)
  {
    EventOfSound(table);
    WalkIgnoresOther(a, x, b, EventOf(table));
  }

  /** The recognised events of a stream all of whose events carry one
      timestamp carry it too. */
  lemma {:induction false} KeptMillis(s: seq<Stamped>, millis: int)
    requires forall k :: 0 <= k < |s| ==> s[k].millis == millis
    ensures forall k :: 0 <= k < |Kept(s)| ==> Kept(s)[k].millis == millis
  {
    if |s| > 0 {
      KeptMillis(s[..|s| - 1], millis);
    }
  }

  /** Every line produced from one frame starts with that frame's clock. */
  lemma FrameSharesClock(f: Frame, table: map<int, Entry>)
    requires Lines(FrameEvents(f), table).Returned?
    ensures forall l :: l in Lines(FrameEvents(f), table).value ==> Clock(f.timestamp.GetOr(0)) <= l
  {
    var s := FrameEvents(f);
    var render := EventOf(table);
    EventOfSound(table);
    WalkOfKept(s, render);
    KeptMillis(s, f.timestamp.GetOr(0));
    var ls := Lines(s, table).value;
    forall l | l in ls
      ensures Clock(f.timestamp.GetOr(0)) <= l
    {
      var k :| 0 <= k < |ls| && ls[k] == l;
      assert render(Kept(s)[k]) == Returned([l]);
    }
  }

  /** One more event adds its own lines at the end. */
  lemma StepLines(p: seq<Stamped>, x: Stamped, table: map<int, Entry>)
    ensures Lines(p + [x], table) == Cat(Lines(p, table), EventLine(Clock(x.millis), x.event, table))
  {
    assert (p + [x])[..|p + [x]| - 1] == p;
    assert EventOf(table)(x) == EventLine(Clock(x.millis), x.event, table);
  }

  /** Once the walk has raised, later events change nothing. */
  lemma RaisedStays(p: seq<Stamped>, q: seq<Stamped>, table: map<int, Entry>)
    requires Lines(p, table).Raised?
    ensures Lines(p + q, table) == Lines(p, table)
  {
    LinesAppend(p, q, table);
  }

  lemma StampsSplit(done: seq<Stamped>, millis: int, events: seq<Event>, j: nat)
    requires j <= |events|
    ensures done + Stamps(millis, events) == (done + Stamps(millis, events[..j])) + Stamps(millis, events[j..])
  {
    assert Stamps(millis, events) == Stamps(millis, events[..j]) + Stamps(millis, events[j..]);
  }

  /** Once an event of a frame has raised, the rest of the frame changes nothing. */
  lemma FrameRaised(done: seq<Stamped>, millis: int, events: seq<Event>, j: nat, table: map<int, Entry>)
    requires j < |events|
    requires Lines(done + Stamps(millis, events[..j + 1]), table).Raised?
    ensures Lines(done + Stamps(millis, events), table) == Lines(done + Stamps(millis, events[..j + 1]), table)
  {
    var p := done + Stamps(millis, events[..j + 1]);
    var q := Stamps(millis, events[j + 1..]);
    StampsSplit(done, millis, events, j + 1);
    RaisedStays(p, q, table);
  }

  lemma StampsStep(done: seq<Stamped>, millis: int, events: seq<Event>, j: nat)
    requires j < |events|
    ensures done + Stamps(millis, events[..j + 1]) == (done + Stamps(millis, events[..j])) + [Stamped(millis, events[j])]
  {
    assert Stamps(millis, events[..j + 1]) == Stamps(millis, events[..j]) + [Stamped(millis, events[j])];
  }

  /** The loop body: one event's lines appended to those before it. */
  method EventStep(ghost p: seq<Stamped>, clock: string, x: Stamped, table: map<int, Entry>, acc: seq<string>)
    returns (r: Outcome<seq<string>>)
    requires clock == Clock(x.millis)
    requires Lines(p, table) == Returned(acc)
    ensures r == Lines(p + [x], table)
  {
    var out := EventLine(clock, x.event, table);
    StepLines(p, x, table);
    if out.Raised? {
      return Raised(out.exc);
    }
    return Returned(acc + out.value);
  }

  /** The inner loop: the lines of one frame's events appended to those of
      the events before it; the first exception escapes. */
  method FrameLines(ghost done: seq<Stamped>, millis: int, events: seq<Event>, table: map<int, Entry>, acc: seq<string>)
    returns (r: Outcome<seq<string>>)
    requires Lines(done, table) == Returned(acc)
    ensures r == Lines(done + Stamps(millis, events), table)
  {
    var clock := Clock(millis);
    var results := acc;
    assert done + Stamps(millis, events[..0]) == done;
    for j := 0 to |events|
      invariant Lines(done + Stamps(millis, events[..j]), table) == Returned(results)
    {
      ghost var p := done + Stamps(millis, events[..j]);
      StampsStep(done, millis, events, j);
      var next := EventStep(p, clock, Stamped(millis, events[j]), table, results);
      if next.Raised? {
        FrameRaised(done, millis, events, j, table);
        return next;
      }
      results := next.value;
    }
    assert events[..|events|] == events;
    return Returned(results);
  }

  lemma SplitAt<T>(s: seq<T>, k: nat)
    requires k <= |s|
    ensures s[..k] + s[k..] == s
  {
  }

  /** Once a frame has raised, the later frames change nothing. */
  lemma FramesRaised(a: seq<Frame>, b: seq<Frame>, table: map<int, Entry>)
    requires Lines(Stamp(a), table).Raised?
    ensures Lines(Stamp(a + b), table) == Lines(Stamp(a), table)
  {
    StampAppend(a, b);
    RaisedStays(Stamp(a), Stamp(b), table);
  }

  /** The outer loop over the frames, in order. */
  method EventLines(frames: seq<Frame>, table: map<int, Entry>) returns (r: Outcome<seq<string>>)
    ensures r == Lines(Stamp(frames), table)
  {
    var results: seq<string> := [];
    for i := 0 to |frames|
      invariant Lines(Stamp(frames[..i]), table) == Returned(results)
    {
      var frame := frames[i];
      assert frames[..i + 1][..i] == frames[..i];
      var out := FrameLines(Stamp(frames[..i]), frame.timestamp.GetOr(0), frame.events.GetOr([]), table, results);
      if out.Raised? {
        FramesRaised(frames[..i + 1], frames[i + 1..], table);
        SplitAt(frames, i + 1);
        return out;
      }
      results := out.value;
    }
    assert frames[..|frames|] == frames;
    return Returned(results);
  }

  // ------------------------------------------------------------ the tool

  /** `Match: <id> - Frame interval: <frameInterval // 1000>s` */
  function Header(matchId: string, info: TimelineInfo): (r: string)
    ensures "Match: " + matchId + " - Frame interval: " <= r
    ensures r[|r| - 1] == 's'
  {
    "Match: " + matchId + " - Frame interval: " + Decimal(info.frameInterval.GetOr(0) / 1000) + "s"
  }

  /** The reply built from `info`: TypeError when it has no participant list,
      KeyError when a participant has no id or a building kill names an
      unknown team, and otherwise the header followed by the event lines. */
  function Summary(matchId: string, info: TimelineInfo): (r: Outcome<string>)
    ensures info.participants.None? ==> r == Raised(TypeError)
    ensures info.participants.Some? ==>
      (r.Raised? <==>
         || (exists i :: 0 <= i < |info.participants.value| && info.participants.value[i].participantId.None?)
         || (exists k :: 0 <= k < |Stamp(info.frames.GetOr([]))| && UnknownTeam(Stamp(info.frames.GetOr([]))[k].event)))
      && (r.Raised? ==> r.exc == KeyError)
    ensures r.Returned? ==> Header(matchId, info) <= r.value
  {
    if info.participants.None? then Raised(TypeError)
    else
      TableRaises(info.participants.value);
      match Table(info.participants.value)
      case Raised(e) => Raised(e)
      case Returned(table) =>
        var s := Stamp(info.frames.GetOr([]));
        LinesRaise(s, table);
        match Lines(s, table)
        case Raised(e) =>
          assert e == KeyError;
          assert s == Stamp(info.frames.GetOr([]));
          Raised(e)
        case Returned(ls) =>
          JoinLinesFirst([Header(matchId, info)] + ls);
          Returned(JoinLines([Header(matchId, info)] + ls))
  }

  /** get_match_timeline_by_id: the empty-body test comes before the
      error-record test; a missing "info" reads as an empty one. */
  method GetMatchTimeline(region: string, matchId: string, net: Transport<Body<TimelineDoc>>) returns (r: Outcome<string>)
    ensures region !in Codes ==> r == Raised(KeyError)
    ensures region in Codes ==>
      match RiotReq<Body<TimelineDoc>>(net)
      case Raised(e) => r == Raised(e)
      case Returned(Failed(f)) => r == Returned(Message(f))
      case Returned(Json(Falsy)) => r == Returned(Tools.NoMatch)
      case Returned(Json(Object(doc))) => r == Summary(matchId, doc.info.GetOr(NoInfo))
  {
    var url := RegionalUrl(region);
    if url.Raised? {
      return Raised(url.exc);
    }
    var data := RiotReq(net);
    if data.Raised? {
      return Raised(data.exc);
    }
    if data.value == Json(Falsy) {
      return Returned(Tools.NoMatch);
    }
    if data.value.Failed? {
      return Returned(Message(data.value.failure));
    }
    var info := data.value.body.fields.info.GetOr(NoInfo);
    var frames := info.frames.GetOr([]);
    if info.participants.None? {
      return Raised(TypeError);
    }
    var table := ParticipantMap(info.participants.value);
    if table.Raised? {
      return Raised(table.exc);
    }
    var header := Header(matchId, info);
    var lines := EventLines(frames, table.value);
    if lines.Raised? {
      return Raised(lines.exc);
    }
    return Returned(JoinLines([header] + lines.value));
  }
}
