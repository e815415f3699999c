/** The post-fetch halves of the four simple tools: get_player_id,
    get_champion_masteries, get_newest_matches and get_match_by_id. Each takes
    the region code and what the HTTP client reported, and gives the tool's
    reply string or the exception that escapes it. */
module Tools {
  import opened PyRuntime
  import opened Text
  import opened Regions
  import opened RiotRequest

  const NoAccount := "Found no account with that name in the server"
  const NoMasteries := "Account does not exist on region"
  const NoMatches := "Account has no matches or does not exist"
  const NoMatch := "Match does not exist"

  /** How many masteries the reply shows at most. */
  const TopMasteries := 10

  // ---------------------------------------------------------------- accounts

  /** The account-by-riot-id body; every field is read with `[]`. */
  datatype Account = Account(gameName: Option<string>, tagLine: Option<string>, puuid: Option<string>) {
    predicate Complete() {
      gameName.Some? && tagLine.Some? && puuid.Some?
    }
  }

  function AccountText(a: Account): string
    requires a.Complete()
  {
    "Name:" + a.gameName.value + "#" + a.tagLine.value + " PUUID: " + a.puuid.value
  }

  /** get_player_id: the empty-body test comes before the error-record test. */
  function GetPlayerId(region: string, net: Transport<Body<Account>>): (r: Outcome<string>)
    ensures region !in Codes ==> r == Raised(KeyError)
    ensures region in Codes ==>
      match RiotReq<Body<Account>>(net)
      case Raised(e) => r == Raised(e)
      case Returned(Failed(f)) => r == Returned(Message(f))
      case Returned(Json(Falsy)) => r == Returned(NoAccount)
      case Returned(Json(Object(a))) =>
        (r.Raised? <==> !a.Complete()) && (r.Raised? ==> r.exc == KeyError)
        && (r.Returned? ==> r.value == AccountText(a))
  {
    match RegionalUrl(region)
    case Raised(e) => Raised(e)
    case Returned(_) =>
      match RiotReq(net)
      case Raised(e) => Raised(e)
      case Returned(data) =>
        if data == Json(Falsy) then Returned(NoAccount)
        else if data.Failed? then Returned(Message(data.failure))
        else if !data.body.fields.Complete() then Raised(KeyError)
        else Returned(AccountText(data.body.fields))
  }

  // --------------------------------------------------------------- masteries

  /** One entry of the champion-mastery list; every field is read with `[]`. */
  datatype Mastery = Mastery(championId: Option<int>, championLevel: Option<int>, championPoints: Option<int>) {
    predicate Complete() {
      championId.Some? && championLevel.Some? && championPoints.Some?
    }
  }

  function MasteryText(m: Mastery): string
    requires m.Complete()
  {
    "Champion " + Decimal(m.championId.value) + ": Level " + Decimal(m.championLevel.value)
    + " - " + Decimal(m.championPoints.value) + " pts"
  }

  /** Line i of the reply is entry i rendered: input order, no re-sorting. */
  function MasteryTexts(ms: seq<Mastery>): (lines: seq<string>)
    requires forall i :: 0 <= i < |ms| ==> ms[i].Complete()
  {
    seq(|ms|, i requires 0 <= i < |ms| => MasteryText(ms[i]))
  }

  /** get_champion_masteries: the error-record test comes before the
      empty-list test; then the first ten entries, one line each. */
  method GetChampionMasteries(region: string, net: Transport<seq<Mastery>>) returns (r: Outcome<string>)
    ensures region !in Codes ==> r == Raised(KeyError)
    ensures region in Codes ==>
      match RiotReq(net)
      case Raised(e) => r == Raised(e)
      case Returned(Failed(f)) => r == Returned(Message(f))
      case Returned(Json(ms)) =>
        if |ms| == 0 then r == Returned(NoMasteries)
        else
          var top := ms[..Min(|ms|, TopMasteries)];
          (r.Raised? <==> exists i :: 0 <= i < |top| && !top[i].Complete())
          && (r.Raised? ==> r.exc == KeyError)
          && (r.Returned? ==> r.value == JoinLines(MasteryTexts(top)))
  {
    var url := PlatformUrl(region);
    if url.Raised? {
      return Raised(url.exc);
    }
    var data := RiotReq(net);
    if data.Raised? {
      return Raised(data.exc);
    }
    if data.value.Failed? {
      return Returned(Message(data.value.failure));
    }
    var ms := data.value.body;
    if |ms| == 0 {
      return Returned(NoMasteries);
    }
    var top := ms[..Min(|ms|, TopMasteries)];
    var results: seq<string> := [];
    for i := 0 to |top|
      invariant |results| == i
      invariant forall k :: 0 <= k < i ==> top[k].Complete() && results[k] == MasteryText(top[k])
    {
      var mastery := top[i];
      if !mastery.Complete() {
        return Raised(KeyError);
      }
      results := results + [MasteryText(mastery)];
    }
    assert results == MasteryTexts(top);
    return Returned(JoinLines(results));
  }

  /** A mastery line never holds a newline, so the reply of a non-empty list
      splits into exactly min(N, 10) lines, the rendered entries in order. */
  lemma MasteryReplyLines(ms: seq<Mastery>)
    requires 0 < |ms|
    requires forall i :: 0 <= i < |ms| ==> ms[i].Complete()
    ensures |SplitLines(JoinLines(MasteryTexts(ms)))| == |ms|
    ensures SplitLines(JoinLines(MasteryTexts(ms))) == MasteryTexts(ms)
  {
    var lines := MasteryTexts(ms);
    forall i | 0 <= i < |lines|
      ensures NoNewline(lines[i])
    {
      var m := ms[i];
      DecimalNoNewline(m.championId.value);
      DecimalNoNewline(m.championLevel.value);
      DecimalNoNewline(m.championPoints.value);
    }
    SplitJoin(lines);
  }

  // ------------------------------------------------------------ match lists

  /** Where Python's slice `s[:stop]` ends, for a list of length len: a
      negative stop counts from the end. */
  function SliceStop(len: nat, stop: int): (end: nat)
    ensures end <= len
    ensures stop >= len ==> end == len
    ensures 0 <= stop <= len ==> end == stop
    ensures stop < 0 ==> len - end == Min(len, -stop)
  {
    if stop >= 0 then Min(stop, len) else Max(0, len + stop)
  }

  /** get_newest_matches: the error-record test comes before the empty-list
      test; then the ids of `data[:numberOfGames]`, one per line. */
  method GetNewestMatches(region: string, count: int, net: Transport<seq<string>>) returns (r: Outcome<string>)
    ensures region !in Codes ==> r == Raised(KeyError)
    ensures region in Codes ==>
      match RiotReq(net)
      case Raised(e) => r == Raised(e)
      case Returned(Failed(f)) => r == Returned(Message(f))
      case Returned(Json(ids)) =>
        if |ids| == 0 then r == Returned(NoMatches)
        else if count >= 0 then r == Returned(JoinLines(ids[..Min(|ids|, count)]))
        else r == Returned(JoinLines(ids[..Max(0, |ids| + count)]))
  {
    var url := RegionalUrl(region);
    if url.Raised? {
      return Raised(url.exc);
    }
    var data := RiotReq(net);
    if data.Raised? {
      return Raised(data.exc);
    }
    if data.value.Failed? {
      return Returned(Message(data.value.failure));
    }
    var ids := data.value.body;
    if |ids| == 0 {
      return Returned(NoMatches);
    }
    var selected := ids[..SliceStop(|ids|, count)];
    var results: seq<string> := [];
    for i := 0 to |selected|
      invariant results == selected[..i]
    {
      results := results + [selected[i]];
    }
    assert selected[..|selected|] == selected;
    return Returned(JoinLines(results));
  }

  // ------------------------------------------------------------ match detail

  /** One participant of a match document; every field is read with `[]`. */
  datatype MatchParticipant = MatchParticipant(
    riotIdGameName: Option<string>,
    championName: Option<string>,
    kills: Option<int>,
    deaths: Option<int>,
    assists: Option<int>,
    totalTimeSpentDead: Option<int>,
    win: Option<bool>,
    timePlayed: Option<int>)
  {
    predicate Complete() {
      riotIdGameName.Some? && championName.Some? && kills.Some? && deaths.Some?
      && assists.Some? && totalTimeSpentDead.Some? && win.Some? && timePlayed.Some?
    }
  }

  datatype MatchInfo = MatchInfo(gameMode: Option<string>, gameDuration: Option<int>, participants: Option<seq<MatchParticipant>>)

  datatype MatchDoc = MatchDoc(info: Option<MatchInfo>)

  /** Everything the formatting half of get_match_by_id reads with `[]` is present. */
  predicate InfoComplete(info: MatchInfo) {
    && info.gameMode.Some?
    && info.gameDuration.Some?
    && info.participants.Some?
    && forall i :: 0 <= i < |info.participants.value| ==> info.participants.value[i].Complete()
  }

  /** The duration in whole minutes; Python's `//` and Dafny's `/` agree for a
      positive divisor. */
  function MatchHeader(gameMode: string, gameDuration: int): string {
    "Mode: " + gameMode + " - Duration: " + Decimal(gameDuration / 60) + "min"
  }

  function ParticipantText(p: MatchParticipant): string
    requires p.Complete()
  {
    p.riotIdGameName.value + " - " + p.championName.value + " - "
    + Decimal(p.kills.value) + "/" + Decimal(p.deaths.value) + "/" + Decimal(p.assists.value)
    + " time spent dead" + Decimal(p.totalTimeSpentDead.value) + " - "
    + Verdict(p.win.value) + " -" + Decimal(p.timePlayed.value)
  }

  function Verdict(win: bool): string {
    if win then "Win" else "Loss"
  }

  /** Line i after the header is participant i: input order. */
  function ParticipantTexts(ps: seq<MatchParticipant>): (lines: seq<string>)
    requires forall i :: 0 <= i < |ps| ==> ps[i].Complete()
  {
    seq(|ps|, i requires 0 <= i < |ps| => ParticipantText(ps[i]))
  }

  /** The lines get_match_by_id builds from `data["info"]`: the header, then
      one line per participant. */
  method MatchLines(info: MatchInfo) returns (r: Outcome<seq<string>>)
    ensures r.Raised? <==> !InfoComplete(info)
    ensures r.Raised? ==> r.exc == KeyError
    ensures r.Returned? ==>
      r.value == [MatchHeader(info.gameMode.value, info.gameDuration.value)] + ParticipantTexts(info.participants.value)
  {
    if info.gameMode.None? || info.gameDuration.None? {
      return Raised(KeyError);
    }
    var header := MatchHeader(info.gameMode.value, info.gameDuration.value);
    var results := [header];
    if info.participants.None? {
      return Raised(KeyError);
    }
    var ps := info.participants.value;
    for i := 0 to |ps|
      invariant |results| == i + 1 && results[0] == header
      invariant forall k :: 0 <= k < i ==> ps[k].Complete() && results[k + 1] == ParticipantText(ps[k])
    {
      var p := ps[i];
      if !p.Complete() {
        return Raised(KeyError);
      }
      results := results + [ParticipantText(p)];
    }
    assert results == [header] + ParticipantTexts(ps);
    return Returned(results);
  }

  /** get_match_by_id: the empty-body test comes before the error-record test;
      `data["info"]` must be present. */
  method GetMatchById(region: string, net: Transport<Body<MatchDoc>>) returns (r: Outcome<string>)
    ensures region !in Codes ==> r == Raised(KeyError)
    ensures region in Codes ==>
      match RiotReq<Body<MatchDoc>>(net)
      case Raised(e) => r == Raised(e)
      case Returned(Failed(f)) => r == Returned(Message(f))
      case Returned(Json(Falsy)) => r == Returned(NoMatch)
      case Returned(Json(Object(doc))) =>
        (r.Raised? <==> doc.info.None? || !InfoComplete(doc.info.value))
        && (r.Raised? ==> r.exc == KeyError)
        && (r.Returned? ==>
              var info := doc.info.value;
              r.value == JoinLines([MatchHeader(info.gameMode.value, info.gameDuration.value)]
                                   + ParticipantTexts(info.participants.value)))
  {
    var url := RegionalUrl(region);
    if url.Raised? {
      return Raised(url.exc);
    }
    var data := RiotReq(net);
    if data.Raised? {
      return Raised(data.exc);
    }
    if data.value == Json(Falsy) {
      return Returned(NoMatch);
    }
    if data.value.Failed? {
      return Returned(Message(data.value.failure));
    }
    var doc := data.value.body.fields;
    if doc.info.None? {
      return Raised(KeyError);
    }
    var lines := MatchLines(doc.info.value);
    if lines.Raised? {
      return Raised(lines.exc);
    }
    return Returned(JoinLines(lines.value));
  }

  /** A 1500-second CLASSIC game is headed "Mode: CLASSIC - Duration: 25min". */
  lemma MatchHeaderExample()
    ensures MatchHeader("CLASSIC", 1500) == "Mode: CLASSIC - Duration: 25min"
  {
    assert 1500 / 60 == 25;
    assert Digits(2) == "2";
    assert Digits(25) == Digits(2) + [DigitChar(5)];
    assert Decimal(25) == "25";
  }
}
