# Ping and traceroute servers of neip.xyz, modelled in Dafny

The neip.xyz network-diagnostics site runs two small HTTP back ends that
start `ping`, `tracert` or `traceroute` on the server and stream what the
process prints to the browser as server-sent events.

* `ping-server/server.js` (Express) has two routes, `POST /api/ping` and
  `POST /api/tracert`. Both check a bearer API key and validate the body with
  a Joi schema: a host that is an IPv4 address or a domain name, and a
  packet count (1 to 10, default 4) or hop limit (1 to 30, default 30).
  Each route then writes a `start` event, builds a platform-specific command
  and spawns it. Every stdout line is normalised by `cleanPingOutput` or
  `cleanTracertOutput` and becomes an `output` event. Every non-blank stderr
  chunk becomes an `error` event. The process exit becomes a `complete`
  event that ends the stream.
* `traceroute-server/src/routes/traceroute.ts` has a single
  `POST /api/tracert` route. It needs a non-empty string host and strips it
  to `[a-zA-Z0-9.-]`. It builds `tracert` or `traceroute` arguments from
  `maxHops` and `timeout`, and streams each raw stdout chunk as an `output`
  event. Each event carries the highest hop number seen so far.

The project has these modules, one per file:

| file | module | what it holds |
|---|---|---|
| `base.dfy` | `Base` | `Option`, `Result` |
| `text.dfy` | `Text` | the JavaScript string operations the code uses: `\s`, `\d`, `includes`, `trim`, `split`, `padStart`, `padEnd`, number rendering and `parseInt` of digits |
| `clean.dfy` | `Cleaning` | the four-step cleaning that both normalisers start with |
| `patterns.dfy` | `Patterns` | every regular expression of the two normalisers and of the hop counter, written out by hand. Each says what the engine finds at a given position, backtracking included, and `Exec` is the leftmost match of `String.prototype.match` |
| `matches.dfy` | `Matches` | what each of those regular expressions matches, stated without the matcher, in both directions |
| `pieces.dfy` | `Pieces` | facts about the cleaning of lines assembled from pieces, used by the examples and idempotence proofs |
| `ping_output.dfy` | `PingOutput` | `cleanPingOutput` |
| `tracert_output.dfy` | `TracertOutput` | `cleanTracertOutput` |
| `ping_examples.dfy` | `PingExamples` | `cleanPingOutput` on one concrete line of each kind, and the exact statistics captures |
| `ping_idempotence.dfy` | `PingIdempotence` | normalising a normalised ping line changes nothing |
| `tracert_examples.dfy` | `TracertExamples` | `cleanTracertOutput` on a concrete hop line |
| `tracert_idempotence.dfy` | `TracertIdempotence` | normalising a normalised tracert line changes nothing |
| `platform.dfy` | `Platform` | `getOS`, `buildPingCommand`, `buildTracertCommand` |
| `admission.dfy` | `Admission` | `authenticateApiKey` and the two schemas |
| `stream.dfy` | `DiagnosticStream` | the two streaming handlers of `server.js` |
| `traceroute_route.dfy` | `TracerouteRoute` | the route of `traceroute.ts` |

The handlers work by updating the response step by step, so each is a
class, `Session`. Its fields are the events sent so far, whether the
response has ended, whether the client is still connected, and, in
traceroute.ts, the `hopCount` accumulator. Each process listener is a
method. `Replay` feeds the listeners a sequence of callbacks: stdout
chunks, stderr chunks, the exit, the client going away. Every method is
proved against a pure specification, `Step` and `Run`, and the properties
of the streams are lemmas about that specification.

## Model

| member | source | states |
|---|---|---|
| Admission.ConfiguredApiKey | ping-server/server.js:12 | the key is never empty; a set, non-empty `API_KEY` is used as it is |
| Admission.AuthenticateApiKey | ping-server/server.js:45-58 | the request passes exactly when the header is `Bearer ` followed by the key. "Missing or invalid API key" is answered exactly when the header is missing or lacks the `Bearer ` prefix; any other failure answers "Invalid API key" |
| Admission.OctetIsByte | ping-server/server.js:67 | the three octet alternatives accept exactly the numbers 0 to 255 written with one to three digits |
| Admission.IPv4IsDomain | ping-server/server.js:67-70 | every string the address rule accepts is also accepted by the domain rule |
| Admission.HostRuleIsDomainRule | ping-server/server.js:62-74 | the host rule accepts a host iff it has 1 to 253 characters and passes the domain rule |
| Admission.OutOfRangeQuadAccepted | ping-server/server.js:67-72 | `300.1.1.1` fails the address rule and is still accepted |
| Admission.Bounded | ping-server/server.js:75 | an integer field passes iff it is absent or within bounds; the value is then the given one or the default, and a failure names the field |
| Admission.Validate | ping-server/server.js:322-329 | validation succeeds iff the host is present and valid and the number passes; on success the request carries both values; a bad host is reported as the failing field |
| Admission.PingRequestBounds | ping-server/server.js:61-76 | a validated ping request has a 1-253 character domain-rule host and a count of 1 to 10, which is 4 when absent |
| Admission.TracertRequestBounds | ping-server/server.js:79-94 | a validated tracert request has a 1-253 character domain-rule host and a hop limit of 1 to 30, which is 30 when absent |
| Platform.GetOS | ping-server/server.js:97-102 | the result is always one of windows, macos or linux: windows iff the platform is `win32`, macos iff it is `darwin` |
| Platform.Override | ping-server/server.js:113 | the spread-and-override environment has the old keys plus the new one, maps the new key to its value and keeps every other entry |
| Platform.BuildPingCommand | ping-server/server.js:105-130 | never fails; on `win32` it runs `cmd /c "chcp 65001 >nul && ping -n <count> <host>"` with `LANG=en_US.UTF-8`; elsewhere it runs `ping -c <count> <host>` with `LC_ALL=C` |
| Platform.BuildTracertCommand | ping-server/server.js:133-158 | never fails; on `win32` it runs `cmd /c "chcp 65001 >nul && tracert -h <n> <host>"` with `LANG=en_US.UTF-8`; elsewhere it runs `traceroute -m <n> <host>` with `LC_ALL=C` |
| Platform.UnsupportedOnlyForUnknownSystems | ping-server/server.js:127-128 | the `Unsupported operating system` branch is taken iff the system is not one `getOS` returns, so it is unreachable |
| Platform.UnixBuildersAgree | ping-server/server.js:115-126 | macOS and Linux get identical commands |
| Platform.LocaleOverride | ping-server/server.js:113-125 | ping and tracert get the same environment: exactly one locale variable is added or replaced and every other variable is kept |
| Cleaning.ReplaceGlyphs | ping-server/server.js:163 | the length is kept, no glyph is left, and every other character is kept in place |
| Cleaning.ReplaceNonAscii | ping-server/server.js:164 | the length is kept, the result is all ASCII, and every ASCII character is kept in place |
| Cleaning.GlyphStepSubsumed | ping-server/server.js:163-164 | the glyph replacement changes nothing that the non-ASCII replacement would not |
| Cleaning.Collapse | ping-server/server.js:165 | the result is no longer, empty iff the input is, single-spaced, starts with white space iff the input does, and stays ASCII |
| Cleaning.Clean | ping-server/server.js:162-166 | the cleaned line is canonical: ASCII, single-spaced, trimmed |
| Cleaning.CleanOfCanonical | ping-server/server.js:162-166 | a canonical line is left unchanged |
| Cleaning.CleanIdempotent | ping-server/server.js:162-166 | cleaning twice is cleaning once |
| Cleaning.VisibleCollapse | ping-server/server.js:165 | collapsing white space keeps every other character in order |
| Cleaning.VisibleTrim | ping-server/server.js:166 | trimming keeps every non-white-space character in order |
| Cleaning.CleanKeepsVisible | ping-server/server.js:162-166 | the cleaned line has exactly the non-white-space characters of the raw line, with non-ASCII characters turned into spaces, in their order |
| Cleaning.CollapseRun | ping-server/server.js:165 | a run of white space between two non-white-space characters becomes exactly one space, and the two sides collapse independently |
| Cleaning.CollapseOfSingleSpaced | ping-server/server.js:165 | a single-spaced line is left unchanged by the collapse |
| Cleaning.CollapseWord | ping-server/server.js:165 | every word of the collapsed line occurs in the raw line, and the word is not cut short: where the raw line goes on without white space, so does the collapsed one |
| Cleaning.CleanWord | ping-server/server.js:162-166 | every word of the cleaned line occurs in the raw line and is not cut short there |
| Text.TrimIsSlice | ping-server/server.js:367 | `trim` returns the slice between leading and trailing white space, and only white space is removed |
| Text.TrimIdempotent | ping-server/server.js:371-372 | trimming a trimmed line changes nothing |
| Text.TrimEmptyIffAllSpace | ping-server/server.js:368 | a chunk is blank after `trim` iff it is all white space |
| Text.Split | ping-server/server.js:369 | `split` gives at least one piece, and no piece holds the separator |
| Text.JoinSplit | ping-server/server.js:369 | joining the pieces of `split` gives the string back |
| Text.SplitJoin | ping-server/server.js:369 | splitting a join of separator-free pieces gives the pieces back |
| Text.PadStart | ping-server/server.js:231 | `padStart` reaches the target length or keeps a longer string, ends with the string, and is spaces before it |
| Text.PadEnd | ping-server/server.js:259 | `padEnd` reaches the target length or keeps a longer string, starts with the string, and is spaces after it |
| Text.DigitsValueOfNatToString | traceroute-server/src/routes/traceroute.ts:54 | reading rendered digits back with `parseInt` gives the number |
| Patterns.ReplyTimeAt | ping-server/server.js:170 | a match of `time=([0-9.]+)\s*ms` captures digits and dots that follow `time=` in the line |
| Patterns.DottedQuadAt | ping-server/server.js:171 | a match of `(\d+\.\d+\.\d+\.\d+)` captures four digit runs joined by dots, found at the match position |
| Patterns.DigitsMsAt | ping-server/server.js:179 | a match of `(\d+)ms` captures digits directly followed by `ms` |
| Patterns.SentAt | ping-server/server.js:196 | a match of `(\d+)\s*packets?\s*transmitted` captures digits found at the match position |
| Patterns.ReceivedAt | ping-server/server.js:197 | a match of `(\d+)\s*received` captures digits found at the match position |
| Patterns.LossAt | ping-server/server.js:198 | a match of `(\d+)%\s*packet\s*loss` captures digits followed by `%` |
| Patterns.TripleAt | ping-server/server.js:207 | a match of `([0-9.]+)\/([0-9.]+)\/([0-9.]+)` captures three runs of digits and dots that are the matched text around two slashes |
| Patterns.TracerouteToAt | ping-server/server.js:238 | a match of `traceroute to ([^\s]+)` captures a non-white-space word that follows `traceroute to ` in the line |
| Patterns.TimeMsAt | ping-server/server.js:254 | a match of `([0-9.]+)\s*ms` captures digits and dots, and the matched text ends in `ms` |
| Patterns.LeadingNumberAt | ping-server/server.js:266 | `^\s*(\d+)` matches only at the start; it captures the maximal digit run after the leading white space |
| Patterns.HopLineAt | ping-server/server.js:227 | `^\s*(\d+)\s+(.+)` matches only at the start; group 1 is digits, group 2 holds no line terminator and ends the match; whenever it matches, `^\s*(\d+)` matches with the same number |
| Patterns.HopPrefixAt | ping-server/server.js:245 | `^\s*\d+\s+` matches only at the start |
| Patterns.LeadingHopAt | traceroute-server/src/routes/traceroute.ts:52 | `^\s*(\d+)\s` matches only at the start and captures digits; whenever it matches, `^\s*(\d+)` matches with the same number |
| Patterns.Exec | ping-server/server.js:170 | `match` returns the match at the leftmost position where the pattern matches, and `null` iff it matches at no position |
| Patterns.ExecFindsFirst | ping-server/server.js:170 | a match with no match before it is the one `match` returns |
| Patterns.ExecAnchored | ping-server/server.js:227 | a pattern that starts with `^` is matched at position 0 or not at all |
| Matches.DottedQuadFound | ping-server/server.js:171 | the text `match` returns for `(\d+\.\d+\.\d+\.\d+)` is exactly the captured dotted quad, and no digit follows it |
| Matches.ReplyTimeFound | ping-server/server.js:170 | the text `match` returns for `time=([0-9.]+)\s*ms` is `time=`, the captured digits and dots, optional white space and `ms` |
| Matches.DigitsMsFound | ping-server/server.js:179 | the text `match` returns for `(\d+)ms` is the captured digits directly followed by `ms` |
| Matches.SentFound | ping-server/server.js:196 | the text `match` returns for the sent count is the captured digits, `packet` or `packets` and `transmitted`, separated by optional white space |
| Matches.ReceivedFound | ping-server/server.js:197 | the text `match` returns for the received count is the captured digits, optional white space and `received` |
| Matches.LossFound | ping-server/server.js:198 | the text `match` returns for the loss is the captured digits, `%`, `packet` and `loss`, separated by optional white space |
| Matches.TripleFound | ping-server/server.js:207 | the text `match` returns for the round-trip triple is its three captures joined by slashes, and no digit or dot follows it |
| Matches.TracerouteToFound | ping-server/server.js:238 | the text `match` returns is `traceroute to ` and the captured non-white-space word, followed by white space or the end |
| Matches.TimeMsFound | ping-server/server.js:254 | the text `match` returns for `([0-9.]+)\s*ms` is the captured digits and dots, optional white space and `ms` |
| Matches.TimeMsMentionsMs | ping-server/server.js:254 | a line where `([0-9.]+)\s*ms` matches contains `ms` |
| Matches.LeadingNumberFound | ping-server/server.js:266 | `^\s*(\d+)` matches from the start; the matched text is leading white space and the captured digits, and no digit follows |
| Matches.HopPrefixFound | ping-server/server.js:245 | `^\s*\d+\s+` matches from the start; the matched text is white space, digits and at least one white space, and no white space follows |
| Patterns.LeadingNumberPrefix | ping-server/server.js:266 | on a line that starts without white space, the captured number is the line's prefix |
| Patterns.HopLineNumber | ping-server/server.js:225-227 | whatever the hop-line regex matches, the leading-number regex matches too, with the same number |
| Patterns.HopLineRest | ping-server/server.js:227-230 | text found in the rest of a hop line occurs in the line |
| Patterns.HopLineOfWords | ping-server/server.js:227 | on `<digits> <rest>` with a rest that does not start with white space, the hop-line regex captures the digits and the whole rest |
| Matches.ReplyTimeAtIff | ping-server/server.js:170 | `time=([0-9.]+)\s*ms` matches at `p` with end `e` and capture `g` iff `s[p..e]` is `time=`, the digits and dots `g`, optional white space and `ms` |
| Matches.DottedQuadAtIff | ping-server/server.js:171 | `(\d+\.\d+\.\d+\.\d+)` matches at `p` with end `e` and capture `g` iff `s[p..e]` is the dotted quad `g` and no digit follows it |
| Matches.DigitsMsAtIff | ping-server/server.js:179 | `(\d+)ms` matches at `p` with end `e` and capture `g` iff `s[p..e]` is the digits `g` followed by `ms` |
| Matches.SentAtIff | ping-server/server.js:196 | `(\d+)\s*packets?\s*transmitted` matches at `p` with end `e` and capture `g` iff `s[p..e]` is the digits `g`, `packet` or `packets` and `transmitted`, separated by optional white space |
| Matches.ReceivedAtIff | ping-server/server.js:197 | `(\d+)\s*received` matches at `p` with end `e` and capture `g` iff `s[p..e]` is the digits `g`, optional white space and `received` |
| Matches.LossAtIff | ping-server/server.js:198 | `(\d+)%\s*packet\s*loss` matches at `p` with end `e` and capture `g` iff `s[p..e]` is the digits `g`, `%`, `packet` and `loss`, separated by optional white space |
| Matches.TripleAtIff | ping-server/server.js:207 | `([0-9.]+)\/([0-9.]+)\/([0-9.]+)` matches at `p` with end `e` and captures `g` iff `s[p..e]` is the three runs `g` joined by slashes and no digit or dot follows it |
| Matches.TracerouteToAtIff | ping-server/server.js:238 | `traceroute to ([^\s]+)` matches at `p` with end `e` and capture `g` iff `s[p..e]` is `traceroute to ` and the non-white-space word `g`, followed by white space or the end |
| Matches.TimeMsAtIff | ping-server/server.js:254 | `([0-9.]+)\s*ms` matches at `p` with end `e` and capture `g` iff `s[p..e]` is the digits and dots `g`, optional white space and `ms` |
| Matches.LeadingNumberAtIff | ping-server/server.js:266 | `^\s*(\d+)` matches at `p` with end `e` and capture `g` iff `p` is 0, `s[..e]` is leading white space and the digits `g`, and no digit follows |
| Matches.HopPrefixAtIff | ping-server/server.js:245 | `^\s*\d+\s+` matches at `p` with end `e` iff `p` is 0, `s[..e]` is white space, digits and at least one white space, and no white space follows |
| PingOutput.CleanPingOutput | ping-server/server.js:161-214 | the result is empty or longer than five characters. It is empty iff no recogniser takes the line and the cleaned line has at most five characters; a longer unrecognised line is returned cleaned |
| PingOutput.ReplyRendering | ping-server/server.js:168-175 | a Linux/macOS reply is rendered as `64 bytes from <ip>: time=<t>ms`. The address is a dotted quad taken from the raw text; the time is digits and dots taken after `time=` in the cleaned line |
| PingOutput.WindowsReplyRendering | ping-server/server.js:177-184 | a Windows reply is rendered with `bytes=32` and `TTL=63` whatever the line said; the time is the first digit run followed by `ms` |
| PingOutput.BannerRendering | ping-server/server.js:186-192 | the banner names the first dotted quad of the raw text twice and always says `56(84)` |
| PingOutput.SummaryRendering | ping-server/server.js:194-203 | the statistics line is rebuilt from three digit captures that occur in the line |
| PingOutput.RoundTripTest | ping-server/server.js:205 | the round-trip test holds iff the line contains `min`, `avg` and `max`: its `min/avg/max` half is redundant |
| PingOutput.RoundTripRendering | ping-server/server.js:205-211 | the round-trip line is rebuilt from the leftmost `a/b/c` of digits and dots that occurs in the line |
| TracertOutput.CleanTracertOutput | ping-server/server.js:217-282 | the result is empty iff no recogniser takes the line and the cleaned line has at most five characters; a longer unrecognised line is returned cleaned |
| TracertOutput.LinuxHopBranchDead | ping-server/server.js:244-262 | every line the Linux/macOS hop branch would rewrite has already been taken by the first hop branch, so that branch never produces output |
| TracertOutput.LinuxHopNeeds | ping-server/server.js:245-256 | the Linux/macOS branch needs a hop line whose trimmed rest holds a time |
| TracertOutput.HopWithTimeMentionsMs | ping-server/server.js:225-227 | a hop line whose rest holds a time contains `ms` and starts with a number |
| TracertOutput.HopRuleTakes | ping-server/server.js:225-233 | the first hop branch takes every hop line that contains `ms` |
| TracertOutput.CleanTracertOutputSkipsLinuxHop | ping-server/server.js:224-281 | the normaliser equals the same chain without the Linux/macOS branch |
| TracertOutput.HopLineRendering | ping-server/server.js:225-232 | a cleaned line `<hop> <rest>` containing `ms` is shown as the hop padded to two columns, one space and the rest |
| TracertOutput.HopRuleOfWords | ping-server/server.js:227-231 | the first hop branch renders such a line as padded hop, space and unchanged rest |
| TracertOutput.BannerRendering | ping-server/server.js:236-242 | a `traceroute to` line that is not a hop line becomes `Tracing route to <host>`. The host is the non-white-space word after `traceroute to ` |
| TracertOutput.TimeoutRendering | ping-server/server.js:265-270 | a timeout line becomes its leading hop number, padded with spaces to two columns, followed by the fixed timeout text; the number is the line's digit prefix |
| TracertOutput.NoNumberNoHop | ping-server/server.js:236-281 | a line that does not start with a number is shown as the banner, one of the two error messages, itself, or nothing |
| TracertOutput.ErrorMessagesFixed | ping-server/server.js:273-279 | resolution and reachability failures are shown as fixed messages, the same for every line that reaches them |
| PingExamples.ReplyExample | ping-server/server.js:168-175 | the Linux reply `64 bytes from 93.184.216.34: icmp_seq=1 ttl=56 time=11.2 ms` is shown as `64 bytes from 93.184.216.34: time=11.2ms` |
| PingExamples.WindowsReplyExample | ping-server/server.js:177-184 | the Windows reply `Reply from 8.8.8.8: bytes=32 time=5ms TTL=118` is shown with `TTL=63` |
| PingExamples.BannerExample | ping-server/server.js:186-192 | the banner `PING google.com (142.250.196.110) 56(84) bytes of data.` names the address twice in place of the host name |
| PingExamples.SummaryExample | ping-server/server.js:194-203 | `4 packets transmitted, 4 received, 0% packet loss` is shown unchanged |
| PingExamples.RoundTripExample | ping-server/server.js:205-211 | `rtt min/avg/max/mdev = 10.1/11.2/12.3/0.5 ms` is shown as `round-trip min/avg/max = 10.1/11.2/12.3 ms`, dropping the deviation |
| PingExamples.SummaryCounts | ping-server/server.js:194-197 | on any line `<n> packets transmitted, <m> received, …` the sent and received captures are exactly `n` and `m` |
| PingExamples.SummaryLoss | ping-server/server.js:198 | on any such line ending `<l>% packet loss` the loss capture is exactly `l` |
| TracertExamples.HopLineExample | ping-server/server.js:225-232 | the hop line `1  192.168.1.1 (192.168.1.1)  0.123 ms  0.456 ms  0.789 ms` is shown with the hop padded to two columns and each double space made single |
| PingIdempotence.CleanPingOutputIdempotent | ping-server/server.js:161-214 | normalising a normalised ping line changes nothing |
| PingIdempotence.QuadSurvivesClean | ping-server/server.js:162-171 | a dotted quad found in the cleaned line is also found in the raw line, so the address lookup on the raw text cannot fail |
| PingIdempotence.ReplyFixed | ping-server/server.js:168-175 | every rendered reply `64 bytes from <ip>: time=<t>ms` is its own normal form |
| PingIdempotence.WindowsFixed | ping-server/server.js:177-184 | every rendered Windows reply is its own normal form |
| PingIdempotence.BannerFixed | ping-server/server.js:186-192 | every rendered banner `PING <ip> (<ip>) 56(84) bytes of data.` is its own normal form |
| PingIdempotence.SummaryFixed | ping-server/server.js:194-203 | every rendered statistics line is its own normal form |
| PingIdempotence.RoundTripFixed | ping-server/server.js:205-211 | every rendered round-trip line is its own normal form |
| PingIdempotence.PassedThroughFixed | ping-server/server.js:213 | a long unrecognised line, returned cleaned, is still unrecognised and is returned unchanged |
| PingIdempotence.EmptyFixed | ping-server/server.js:213 | the empty output is its own normal form |
| TracertIdempotence.CleanTracertOutputIdempotent | ping-server/server.js:217-282 | normalising a normalised tracert line changes nothing |
| TracertIdempotence.HopOutputFixed | ping-server/server.js:225-232 | a rendered hop line is its own normal form |
| TracertIdempotence.BannerOutputFixed | ping-server/server.js:236-242 | a rendered `Tracing route to <host>` line is its own normal form |
| TracertIdempotence.TimeoutOutputFixed | ping-server/server.js:265-270 | a rendered timeout line is its own normal form |
| TracertIdempotence.ResolveErrorFixed | ping-server/server.js:273-275 | the resolution error message is its own normal form |
| TracertIdempotence.UnreachableFixed | ping-server/server.js:277-279 | the unreachable message is its own normal form |
| TracertIdempotence.PassedThrough | ping-server/server.js:281 | a long canonical line that no rule takes is returned unchanged |
| TracertIdempotence.EmptyFixed | ping-server/server.js:281 | the empty output is its own normal form |
| DiagnosticStream.LineEvents | ping-server/server.js:369-383 | a chunk gives at most one event per line |
| DiagnosticStream.OpenedValid | ping-server/server.js:345-351 | the stream right after admission holds only the `start` event and is well shaped |
| DiagnosticStream.StepValid | ping-server/server.js:366-434 | every listener keeps the stream well shaped: `start` first and only there, `complete` only last and only once ended |
| DiagnosticStream.DeliverValid | ping-server/server.js:380 | writing `output` and `error` events keeps the shape |
| DiagnosticStream.FinishValid | ping-server/server.js:413-414 | writing a last event and ending keeps the shape |
| DiagnosticStream.StepWhenEnded | ping-server/server.js:414 | after `res.end()` no listener adds an event |
| DiagnosticStream.SpawnFailedValid | ping-server/server.js:436-446 | the catch path keeps the shape |
| DiagnosticStream.RunValid | ping-server/server.js:366-434 | every sequence of callbacks keeps the stream well shaped |
| DiagnosticStream.StepExtends | ping-server/server.js:366-434 | a callback only appends events |
| DiagnosticStream.RunExtends | ping-server/server.js:366-434 | callbacks only ever append events: what was sent stays sent |
| DiagnosticStream.EndedStreamFrozen | ping-server/server.js:414 | once ended, no callback changes what the client received |
| DiagnosticStream.SpawnFailureStream | ping-server/server.js:436-446 | a failed build or spawn sends exactly `start` and the error message, and nothing else whatever follows |
| DiagnosticStream.ExitCompletes | ping-server/server.js:404-415 | the exit appends one `complete` event that reports success iff the exit code is 0, and ends the stream |
| DiagnosticStream.LineEventsFromLines | ping-server/server.js:366-385 | each event of a chunk is an `output` event with the chunk's time. Its message is non-empty and is the normalised form of one non-blank line of the chunk |
| DiagnosticStream.LineEventsOneEach | ping-server/server.js:370-383 | when every line survives, each line gives exactly its own event, in order |
| DiagnosticStream.PingOutputsLong | ping-server/server.js:372-373 | every ping `output` message is longer than five characters |
| DiagnosticStream.Session.constructor | ping-server/server.js:336-351 | the session starts with only the `start` event, open and connected, using the tool's normaliser |
| DiagnosticStream.Session.Write | ping-server/server.js:380 | a write reaches the client unless the stream has ended or the client is gone |
| DiagnosticStream.Session.OnSpawnFailure | ping-server/server.js:436-446 | the catch path sends the error's message and ends the stream, keeping the shape |
| DiagnosticStream.Session.OnStdout | ping-server/server.js:366-385 | the stdout listener does what the specification step does, keeping the shape |
| DiagnosticStream.Session.WriteLine | ping-server/server.js:371-382 | one line is written iff it is non-blank and normalises to something |
| DiagnosticStream.Session.WriteLines | ping-server/server.js:369-383 | the `forEach` writes the events of all lines, in order |
| DiagnosticStream.Session.OnStderr | ping-server/server.js:388-401 | a non-blank stderr chunk gives one `error` event with the normalised text, or the raw trimmed text when normalising drops it |
| DiagnosticStream.Session.OnClose | ping-server/server.js:404-415 | the exit sends `complete` with the exit code and success iff code 0, then ends |
| DiagnosticStream.Session.OnProcessError | ping-server/server.js:418-428 | a process error sends `Failed to execute <tool>: <message>`, then ends |
| DiagnosticStream.Session.OnClientClose | ping-server/server.js:431-434 | a disconnect stops all further delivery |
| DiagnosticStream.Session.Dispatch | ping-server/server.js:366-434 | each callback reaches its listener, which performs the specification step |
| DiagnosticStream.Session.Replay | ping-server/server.js:366-434 | replaying callbacks produces the specification run and keeps the shape |
| DiagnosticStream.BuildCommand | ping-server/server.js:353-355 | building the command never throws |
| DiagnosticStream.Handle | ping-server/server.js:319-454 | a request is answered 401 when the key check fails and 400 `Invalid input` when validation fails. It is streamed iff both pass; a streamed response is well shaped, and is the spawn-failure stream or the run of the callbacks from the `start` event |
| TracerouteRoute.Sanitize | traceroute-server/src/routes/traceroute.ts:22 | the sanitised host is no longer and holds only `[a-zA-Z0-9.-]` |
| TracerouteRoute.SanitizeAppend | traceroute-server/src/routes/traceroute.ts:22 | sanitising distributes over concatenation |
| TracerouteRoute.SanitizeChar | traceroute-server/src/routes/traceroute.ts:22 | one character is kept iff it is allowed |
| TracerouteRoute.SanitizeIdentity | traceroute-server/src/routes/traceroute.ts:22 | a host is left unchanged iff all its characters are allowed |
| TracerouteRoute.SanitizeIdempotent | traceroute-server/src/routes/traceroute.ts:22 | sanitising twice is sanitising once |
| TracerouteRoute.SanitizeCounts | traceroute-server/src/routes/traceroute.ts:22 | every allowed character keeps all its occurrences and every other character loses all of them |
| TracerouteRoute.ToText | traceroute-server/src/routes/traceroute.ts:34-35 | `toString` throws exactly on `null` and undefined; numbers print in decimal and strings as they are |
| TracerouteRoute.BuildInvocation | traceroute-server/src/routes/traceroute.ts:31-35 | building the arguments throws iff `maxHops` is `null`, or the platform is Windows and `timeout` is `null` |
| TracerouteRoute.InvocationShape | traceroute-server/src/routes/traceroute.ts:31-35 | Windows runs `tracert -h <maxHops> -w <timeout> <host>`. Elsewhere it runs `traceroute -m <maxHops> -w 1 <host>`, where the timeout is never looked at |
| TracerouteRoute.DefaultInvocation | traceroute-server/src/routes/traceroute.ts:14 | absent fields give 30 hops and 5000 ms |
| TracerouteRoute.LeadingHopDigits | traceroute-server/src/routes/traceroute.ts:52 | the hop regex captures digits |
| TracerouteRoute.ChunkHopOfLine | traceroute-server/src/routes/traceroute.ts:52-54 | a chunk `<digits><white space>…` gives the value of the digits |
| TracerouteRoute.ChunkHopNeedsLeadingNumber | traceroute-server/src/routes/traceroute.ts:52-54 | a trimmed chunk gives a number only when it starts with digits followed by white space, and the number is their value |
| TracerouteRoute.Max | traceroute-server/src/routes/traceroute.ts:54 | `Math.max` is an upper bound equal to one of its arguments |
| TracerouteRoute.NextHopCount | traceroute-server/src/routes/traceroute.ts:52-55 | the accumulator never drops; it becomes the maximum with the chunk's hop number, or stays when there is none |
| TracerouteRoute.HopCountStep | traceroute-server/src/routes/traceroute.ts:48-55 | one more chunk raises the accumulator to its hop number when that is higher |
| TracerouteRoute.HopCountIsHighest | traceroute-server/src/routes/traceroute.ts:46-55 | the accumulator is the highest hop number among the chunks seen, or 0 when none had one |
| TracerouteRoute.HighestOfExtended | traceroute-server/src/routes/traceroute.ts:54 | taking the maximum with the next chunk's number keeps the running maximum |
| TracerouteRoute.HopCountMonotone | traceroute-server/src/routes/traceroute.ts:46-55 | the accumulator never decreases as chunks arrive |
| TracerouteRoute.StepValid | traceroute-server/src/routes/traceroute.ts:48-101 | every listener keeps the stream valid: `complete` only last and only once ended, and the hop counts on events never go down or exceed the accumulator |
| TracerouteRoute.RaiseAndDeliverValid | traceroute-server/src/routes/traceroute.ts:54-63 | raising the accumulator and writing an event with the new value keeps the invariant |
| TracerouteRoute.ExitValid | traceroute-server/src/routes/traceroute.ts:82-92 | writing `complete` with the accumulator and ending keeps the invariant |
| TracerouteRoute.RunValid | traceroute-server/src/routes/traceroute.ts:48-101 | every sequence of callbacks keeps the stream valid |
| TracerouteRoute.RunHopCount | traceroute-server/src/routes/traceroute.ts:46-92 | whatever else happens, the accumulator after a run is the one after its stdout chunks |
| TracerouteRoute.StepHopCount | traceroute-server/src/routes/traceroute.ts:48-55 | one callback feeds the accumulator its stdout chunk, if it has one |
| TracerouteRoute.HighestHopOfRun | traceroute-server/src/routes/traceroute.ts:46-55 | after any sequence of callbacks, the `hopCount` accumulator is the highest hop number among the stdout chunks in it, or 0 when none had one |
| TracerouteRoute.CompleteCarriesHighestHop | traceroute-server/src/routes/traceroute.ts:46-92 | when the process exits, the `complete` event is written last and only once, reports success iff the code is 0, and carries the highest hop number among the stdout chunks received before the exit |
| TracerouteRoute.StdoutOneEvent | traceroute-server/src/routes/traceroute.ts:48-65 | a non-blank chunk gives one `output` event with the whole trimmed chunk and the new accumulator; a blank chunk gives nothing |
| TracerouteRoute.StderrAlwaysReported | traceroute-server/src/routes/traceroute.ts:67-80 | every stderr chunk, even a blank one, gives an `error` event with the trimmed text |
| TracerouteRoute.ExitCompletes | traceroute-server/src/routes/traceroute.ts:82-92 | the exit appends one `complete` event with the accumulator and success iff code 0, and ends the stream |
| TracerouteRoute.Session.constructor | traceroute-server/src/routes/traceroute.ts:46 | the session starts with no events, open, connected, and `hopCount` 0 |
| TracerouteRoute.Session.Write | traceroute-server/src/routes/traceroute.ts:63 | a write reaches the client unless the stream has ended or the client is gone |
| TracerouteRoute.Session.OnStdout | traceroute-server/src/routes/traceroute.ts:48-65 | the stdout listener updates `hopCount` and writes as the specification step does |
| TracerouteRoute.Session.OnStderr | traceroute-server/src/routes/traceroute.ts:67-80 | the stderr listener writes the trimmed chunk as an error |
| TracerouteRoute.Session.OnClose | traceroute-server/src/routes/traceroute.ts:82-92 | the close listener writes `complete` with `hopCount` and ends |
| TracerouteRoute.Session.OnClientClose | traceroute-server/src/routes/traceroute.ts:95-101 | a disconnect stops all further delivery |
| TracerouteRoute.Session.OnStartFailure | traceroute-server/src/routes/traceroute.ts:103-116 | the catch path writes `Failed to start traceroute process` and ends |
| TracerouteRoute.Session.Dispatch | traceroute-server/src/routes/traceroute.ts:48-101 | each callback reaches its listener, which performs the specification step |
| TracerouteRoute.Session.Replay | traceroute-server/src/routes/traceroute.ts:48-101 | replaying callbacks produces the specification run |
| TracerouteRoute.Handle | traceroute-server/src/routes/traceroute.ts:13-117 | a missing, empty or non-string host is answered 400 `Invalid host parameter`. A conversion that throws, or a `spawn` that throws, streams only the start-failure error; otherwise the stream is the run of the callbacks |
| TracerouteRoute.StreamShape | traceroute-server/src/routes/traceroute.ts:48-92 | every streamed response holds at most one `complete` event, last, and its hop counts never go down |

## Left out

- Process execution, the HTTP server and the clock are not modelled. The platform name, the environment, the server name, the timestamps, an exception from `spawn`, and the callbacks of the child process and the client are parameters.
- The SSE framing (`data: …\n\n`), the JSON encoding of events, the `server` field of each event and the response headers are left out. Events are datatypes.
- Logging (`log`, the winston logger) has no observable effect on the response and is left out.
- The middleware of `server.js` is left out: helmet, CORS, rate limiting, body parsing, and the health and info routes. So is `traceroute-server/src/index.ts`, which only mounts the route. `traceroute-server/src/utils/logger.ts` and `src/app/layout.tsx` are not part of this model.
- Joi's type coercion is left out (for example the string `"5"` accepted as the number 5), and so are its messages, its `details` array and its handling of unknown keys. The body's number field is an optional integer, the host an optional string, and a failure is reported as the first failing field.
- The outer `catch` of each `server.js` handler (500 `Internal server error`) is not modelled. Everything before the stream is modelled as not throwing, so it could only be reached by a failure in logging or JSON encoding.
- Characters are Unicode scalar values, while JavaScript strings are UTF-16 code units. A character outside the Basic Multilingual Plane becomes one space here and two in JavaScript. The cleaning collapses white space afterwards, so this only matters to lengths before cleaning.
- `parseInt` of a digit run beyond 2^53 loses precision in JavaScript. Here the value is exact.
- The request body fields of `traceroute.ts` are absent, `null`, an integer, a string or a boolean. Floating-point numbers, arrays and objects are left out, and so is the text their `toString` would give.
- `traceroute.ts` registers no listener for the child process `error` event, so a spawn that fails asynchronously crashes the process there. The model has no callback for it.
- Killing the process on a client disconnect is modelled as the client being gone: every later write is dropped, and the events the client received so far are the result.
- A write after `res.end()` is modelled as dropped.
- DiagnosticStream.LineEvents: its own contract only bounds the number of events. What each event holds is stated by `LineEventsFromLines` and `LineEventsOneEach`.
- ReplyTimeAt (`Patterns.ReplyTimeAt`): its own contract states only what a match implies. That the matcher finds every match, with the longest runs, is stated by `Matches.ReplyTimeAtIff`.
- DottedQuadAt (`Patterns.DottedQuadAt`): its own contract states only what a match implies. That the matcher finds every match, with the longest runs, is stated by `Matches.DottedQuadAtIff`.
- DigitsMsAt (`Patterns.DigitsMsAt`): its own contract states only what a match implies. That the matcher finds every match, with the longest runs, is stated by `Matches.DigitsMsAtIff`.
- SentAt (`Patterns.SentAt`): its own contract states only what a match implies. That the matcher finds every match, with the longest runs, is stated by `Matches.SentAtIff`.
- ReceivedAt (`Patterns.ReceivedAt`): its own contract states only what a match implies. That the matcher finds every match, with the longest runs, is stated by `Matches.ReceivedAtIff`.
- LossAt (`Patterns.LossAt`): its own contract states only what a match implies. That the matcher finds every match, with the longest runs, is stated by `Matches.LossAtIff`.
- TripleAt (`Patterns.TripleAt`): its own contract states only what a match implies. That the matcher finds every match, with the longest runs, is stated by `Matches.TripleAtIff`.
- TracerouteToAt (`Patterns.TracerouteToAt`): its own contract states only what a match implies. That the matcher finds every match, with the longest runs, is stated by `Matches.TracerouteToAtIff`.
- TimeMsAt (`Patterns.TimeMsAt`): its own contract states only what a match implies. That the matcher finds every match, with the longest runs, is stated by `Matches.TimeMsAtIff`.
- LeadingNumberAt (`Patterns.LeadingNumberAt`): its own contract states only what a match implies. That the matcher finds every match, with the longest runs, is stated by `Matches.LeadingNumberAtIff`.
- HopPrefixAt (`Patterns.HopPrefixAt`): its own contract states only what a match implies. That the matcher finds every match, with the longest runs, is stated by `Matches.HopPrefixAtIff`.
- ReplyRendering (`PingOutput.ReplyRendering`): states what the reply is built from, not which captures it takes. The exact output on concrete lines is stated by `PingExamples`, and that every rendered line is its own normal form by `PingIdempotence`.
- WindowsReplyRendering (`PingOutput.WindowsReplyRendering`): states what the Windows reply is built from, not which captures it takes. The exact output on concrete lines is stated by `PingExamples`, and that every rendered line is its own normal form by `PingIdempotence`.
- BannerRendering (`PingOutput.BannerRendering`): states what the banner is built from, not which captures it takes. The exact output on concrete lines is stated by `PingExamples`, and that every rendered line is its own normal form by `PingIdempotence`.
- SummaryRendering (`PingOutput.SummaryRendering`): states what the statistics line is built from, not which captures it takes. The exact output on concrete lines is stated by `PingExamples`, and that every rendered line is its own normal form by `PingIdempotence`.
- RoundTripRendering (`PingOutput.RoundTripRendering`): states what the round-trip line is built from, not which captures it takes. The exact output on concrete lines is stated by `PingExamples`, and that every rendered line is its own normal form by `PingIdempotence`.
- Collapse (`Cleaning.Collapse`): its own contract states the shape of the result, not that each run of white space becomes one space. That is stated by `Cleaning.CollapseRun`, `Cleaning.CollapseWord` and `Cleaning.CollapseOfSingleSpaced`.
- Clean (`Cleaning.Clean`): its own contract states that the result is canonical. That its words are the words of the raw line, separated by one space each, is stated by `Cleaning.CleanWord`, `Cleaning.CollapseRun` and `Cleaning.CleanKeepsVisible`.
