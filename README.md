# LOLmcpAPI server core, modelled in Dafny

The server is a small MCP tool server that answers questions about League of
Legends players and matches by calling the Riot Games HTTP API and turning the
JSON it gets back into plain-text replies. This project models its core, all
of it in `server.py`:

- the two region tables, which map a region code to a routing-cluster URL and
  to a platform-shard URL (`regions.dfy`);
- `riot_req`, which turns the outcome of one GET into the decoded body or an
  error record with a fixed message (`request.dfy`);
- the reply-building halves of the five tools (`tools.dfy`, `timeline.dfy`):
  - `get_player_id`;
  - `get_champion_masteries`, which shows the first ten entries;
  - `get_newest_matches`;
  - `get_match_by_id`;
  - `get_match_timeline_by_id`. This one builds a participant table, puts a
    `[MM:SS]` clock on every frame, and writes one line per recognised event.

`runtime.dfy` holds the bits of Python the code relies on:

- an `Outcome` is either a returned value or an escaping exception
  (`KeyError`, `TypeError`, or httpx's `HTTPStatusError` with its status);
- `Option` stands for a JSON field that may be missing;
- `Truthy` is Python truthiness for the `or` fallbacks.

`text.dfy` renders values the way Python's f-strings do: `str` of an integer,
the `02d` format, the `repr` of a list of integers, and `"\n".join` with its
inverse `split("\n")`.

The HTTP client is not modelled. What it reports is an input, a `Transport`:

- a timeout;
- another request error, with its text;
- or a response, with its status, its `Retry-After` header and the decoded
  JSON body.

The body's type depends on the endpoint:

- an object body is `Falsy` (JSON null or `{}`) or the object's fields;
- a list body is a sequence, and the empty list stands for null too, since
  both give the same reply.

Each field the code reads with `[]` is an `Option`; a missing one raises
`KeyError`. Each field it reads with `.get` carries its default.

A tool with a loop in the source is a method whose loop invariants tie it to
a specification function. Each method's `ensures` states the whole reply, or
the escaping exception, in terms of the transport. A tool without a loop is a
function.

Some failures escape as Python exceptions instead of becoming a reply string,
and the model keeps them:

- an unknown region code raises `KeyError` from the dictionary lookup;
- a building kill of a team other than 100 or 200 raises `KeyError` and
  aborts the whole timeline reply;
- a missing field read with `[]` raises `KeyError`;
- an unmapped non-2xx status raises from `raise_for_status`, because no except
  clause catches `HTTPStatusError`;
- a negative `numberOfGames` slices from the end of the id list, as Python's
  `data[:n]` does.

## Model

| member | source | states |
|---|---|---|
| Regions.RegionalUrl | server.py:16-22 | The routing URL is found exactly for the five codes na, euw, eune, kr, jp and is non-empty and differs from the shard URL; any other code raises KeyError. |
| Regions.PlatformUrl | server.py:24-30 | The shard URL is found exactly for the five codes and differs from the routing URL; any other code raises KeyError. |
| Regions.PlatformUrlsDistinct | server.py:24-30 | Two different region codes never share a platform shard (unlike the routing table, where euw/eune and kr/jp share). |
| RiotRequest.RiotReq | server.py:32-52 | A timeout gives "Request timeout". Another request error gives "Network error " followed by its text. Statuses 429, 404, 403, 401 give their error records, with 429 carrying Retry-After or "unknown". Any other 2xx gives the body. Any other non-2xx raises HTTPStatusError with that status. |
| RiotRequest.RiotReqPartition | server.py:37-48 | The body is passed on exactly for a 2xx response. An exception escapes exactly for a non-2xx status outside 401/403/404/429. |
| RiotRequest.Message | server.py:37-52 | Every error message is non-empty. The rate-limit message carries the Retry-After value right after "Rate limit hit. Retry after ". The network-error message is "Network error " followed by the error's text, which ends it. |
| RiotRequest.MessageInjective | server.py:37-52 | Different failures carry different messages, so the message alone identifies the failure, its Retry-After value and its network-error text. |
| Tools.GetPlayerId | server.py:56-67 | Unknown region raises KeyError. A raised fetch propagates. An empty body gives the no-account text before the error-record test. An error record gives its message. A body missing gameName/tagLine/puuid raises KeyError. Otherwise the reply is "Name:<gameName>#<tagLine> PUUID: <puuid>". |
| Tools.GetChampionMasteries | server.py:70-86 | Error record before empty-list test. An empty list gives "Account does not exist on region". Otherwise KeyError exactly when one of the first min(N,10) entries lacks a field, else those entries' lines joined by newlines, in input order. |
| Tools.MasteryReplyLines | server.py:82-86 | The joined mastery reply splits back into exactly the rendered entries, one line per entry shown. |
| Tools.SliceStop | server.py:101 | Python's `s[:stop]` end index: the whole list when stop is at least its length, stop itself within range, and a negative stop drops that many ids from the end (all of them if it exceeds the length). |
| Tools.GetNewestMatches | server.py:89-103 | Error record before empty-list test. An empty list gives "Account has no matches or does not exist". Otherwise the reply is the ids of `data[:numberOfGames]` joined by newlines; a negative count drops from the end. |
| Tools.MatchLines | server.py:117-126 | KeyError exactly when gameMode, gameDuration, participants or any participant field is missing; otherwise the header line followed by one line per participant in input order. |
| Tools.GetMatchById | server.py:106-126 | Empty body before error-record test. A missing "info" or any missing field raises KeyError. Otherwise the reply is the header ("Mode: …", with the duration in whole minutes) and then the participant lines, joined by newlines. |
| Tools.MatchHeaderExample | server.py:118 | A 1500-second CLASSIC game is headed "Mode: CLASSIC - Duration: 25min". |
| Text.DigitsShape | server.py:84 | `str` of a non-negative integer is a non-empty string of digits, of length one exactly below ten. |
| Text.ParseDigitsInverse | server.py:84 | Reading the digits of `str(n)` back gives n. |
| Text.Decimal | server.py:84 | `str(n)` is non-empty and starts with '-' exactly when n is negative. |
| Text.DecimalInjective | server.py:84 | Different integers are rendered as different strings. |
| Text.DecimalNoNewline | server.py:84 | `str(n)` of an integer holds no newline. |
| Text.Pad2Inverse | server.py:167 | On 0..99 the `02d` format gives exactly two digits that read back as the number. |
| Text.ReprIntsExamples | server.py:168 | The assists list is printed as Python's repr: "[]" and "[3, -7]". |
| Text.JoinLinesFirst | server.py:200 | A newline-joined reply begins with its first line. |
| Text.SplitJoin | server.py:86 | Splitting newline-joined lines that hold no newline gives the lines back. |
| Timeline.TableRaises | server.py:143-149 | Building participant_map raises KeyError exactly when some participant has no participantId. |
| Timeline.TableKeys | server.py:143-149 | The table's keys are exactly the participants' ids. |
| Timeline.TableLastWins | server.py:143-149 | Each id maps to the entry of the last participant carrying it. The entry's name is riotIdGameName, else summonerName (each only if truthy), else "Player <id>"; its champion is championName or "Unknown". |
| Timeline.TablePrefixRaised | server.py:144-145 | Once a participant without an id is met, the loop's outcome is KeyError whatever follows. |
| Timeline.ParticipantMap | server.py:143-149 | The participant loop computes exactly the table specified by Table, including the KeyError escape. |
| Timeline.Label | server.py:150-152 | get_label of an id not in the table is "?(?)". For an id in the table, the label starts with the entry's name and "(", and ends with ")". |
| Timeline.LabelOfTable | server.py:150-152 | get_label of an id no participant carries is "?(?)". Otherwise it is "<name>(<champion>)" of the last participant with that id. |
| Timeline.TeamName | server.py:172-176 | 100 is "Blue Team" and 200 is "Red Team"; any other team raises KeyError. |
| Timeline.SkillName | server.py:193-195 | Slots 1, 2, 3, 4 show as "Q", "W", "E", "R". A single capital letter is shown exactly for those four slots; any other slot shows as its number. |
| Timeline.SkillNameInjective | server.py:193-195 | Slots 1-4 show as Q/W/E/R and any other slot as its number, and different slots never show the same. |
| Timeline.Clock | server.py:157-159 | The frame clock is bracketed: it starts with "[" and ends with "]". |
| Timeline.ClockExamples | server.py:157-159 | Timestamp 125000 ms shows as "[02:05]" and 0 as "[00:00]". |
| Timeline.ClockReadsBack | server.py:157-159 | Below 100 minutes the clock is 7 characters. Its two 2-digit fields read back as minutes and seconds (under 60), which recombine to the timestamp's whole seconds. |
| Timeline.EventText | server.py:161-198 | The text of a recognised event raises KeyError exactly for a building kill of a team other than 100/200. Otherwise it begins with its kind: " KILL - Player " for a champion kill, " BUILDING - Team " for a building kill, and so on for monsters, items and skills. |
| Timeline.EventLineKind | server.py:167-197 | The line of a recognised event is the frame's clock followed by that event's kind tag. So one champion kill gives exactly one "[MM:SS] KILL - Player " line. |
| Timeline.EventLine | server.py:160-198 | An unrecognised event type adds no line. A recognised one adds exactly one line, starting with the frame's clock. KeyError exactly for a building kill of an unknown team. |
| Timeline.EventOfSound | server.py:160-198 | The per-event step keeps EventLine's promise for every stamped event. |
| Timeline.StampAppend | server.py:156-160 | The events of consecutive frame lists come in frame order, then event order. |
| Timeline.WalkAppend | server.py:156-198 | Walking concatenated streams gives the lines of the first followed by those of the second; the first exception escapes. |
| Timeline.LinesAppend | server.py:156-198 | The event lines of two consecutive stretches of the timeline are those of the first followed by those of the second. |
| Timeline.WalkRaises | server.py:160-198 | For any step that keeps EventLine's promise, the walk raises KeyError exactly when some event is a building kill of an unknown team. |
| Timeline.LinesRaise | server.py:170-176 | The timeline's event walk raises KeyError exactly when some building kill names an unknown team. |
| Timeline.WalkOfKept | server.py:160-198 | Without an exception, the walk gives one line per recognised event, in order. |
| Timeline.LinesOfKept | server.py:160-198 | Without an exception, there is one event line per recognised event, in frame and event order. Line k is the one EventLine builds for the k-th recognised event under its frame's clock. |
| Timeline.WalkIgnoresOther | server.py:160-198 | An unrecognised event leaves the walk over its siblings unchanged. |
| Timeline.IgnoresOther | server.py:160-198 | Inserting an event of an unrecognised type anywhere leaves the reply's event lines unchanged. |
| Timeline.FrameSharesClock | server.py:156-160 | Every line produced from one frame starts with that frame's `[MM:SS]` clock. |
| Timeline.RaisedStays | server.py:160-198 | Once an event has raised, later events change nothing: the exception escapes the loop. |
| Timeline.FrameRaised | server.py:160-198 | An exception raised by one event of a frame escapes past the rest of that frame. |
| Timeline.FramesRaised | server.py:156-198 | An exception raised in one frame escapes past the later frames. |
| Timeline.EventStep | server.py:161-198 | One pass of the inner loop body appends exactly the event's lines, or lets its KeyError escape. |
| Timeline.FrameLines | server.py:160-198 | The inner loop over one frame's events appends exactly that frame's event lines, or lets the first KeyError escape. |
| Timeline.EventLines | server.py:156-198 | The nested loop over frames and their events computes exactly the lines specified for the flattened event stream. |
| Timeline.Header | server.py:154 | The first line of the reply starts with "Match: <id> - Frame interval: " and ends with "s". |
| Timeline.Summary | server.py:141-200 | Missing participants raise TypeError (iterating over None). Otherwise KeyError arises exactly when a participant lacks an id or a building kill names an unknown team. A returned reply begins with "Match: <id> - Frame interval: <ms // 1000>s". |
| Timeline.GetMatchTimeline | server.py:129-200 | Unknown region raises KeyError. Empty body before error-record test. A missing "info" reads as `{}`. Otherwise the reply is exactly the timeline summary of the body. |

## Left out

- The network call, the async client, the `X-Riot-Token` header and the
  30-second timeout value are not modelled: what the HTTP client reports is an
  input.
- FastMCP tool registration, the stdio transport, `load_dotenv` and reading
  `RIOT_API_KEY` are configuration and process wiring with no effect on the
  replies.
- URL building is not modelled. Only the region lookup's KeyError is kept. The
  player name, tag line and PUUID go only into the URL, so they never reach
  the reply. The match id also reaches the timeline header. `numberOfGames`
  also caps the id list through `data[:numberOfGames]`, which is modelled.
- `response.json()` failing on a body that is not JSON is not modelled. Neither
  is a body whose shape differs from the one the code expects (a field of the
  wrong type, a list where an object is expected, an "info" that is null).
  Bodies are typed per endpoint.
- A 2xx object body that itself holds a truthy "error" key is not modelled:
  such a body would be answered with its own "message" field.
- Exception payloads are not modelled: which key a KeyError names, and the
  text of the TypeError or the HTTPStatusError. Only the exception kind and
  the HTTP status are kept.
- Python truthiness of `win` for non-boolean JSON values is not modelled: `win`
  is a boolean. Names and modes are strings rather than arbitrary JSON values
  passed through `str`.
- Timeline.EventLine: the contract states the line count, the clock prefix and
  the KeyError case, and EventLineKind adds the kind tag. The rest of each
  line's text (labels, building, monster, item, skill) lives in EventText's
  definition.
- Timeline.Summary: the contract states when the reply raises and that it
  starts with the header. The exact returned text is its definition, connected
  to the event lines by the EventLines and LinesOfKept lemmas.
