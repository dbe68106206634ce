# dian and the stream buffers: a verified model

This project models four parts of the repository and proves what they promise.

* **Messages** (`Patterns`, `Text`, `Headers`, `Decimal`, `Lines`, `Messages`, `Readers`).  The printer and
  the parser of dian's requests and responses.  The three line patterns, the address pattern and the range
  pattern are data, run by one backtracking engine with greedy and lazy repetition; `Readers` holds the
  bounded reader over a socket and the two message readers as classes and methods with loops, proved equal
  to the parsing functions of `Messages`.
* **Sessions and the server** (`Ranges`, `Sessions`, `Client`, `Server`, `Guarantees`, `Ledger`,
  `Provenance`, `Races`, `Dialogue`, `Replies`, `Wire`, `Service`, `Completion`, `Errands`).  `Sessions` and
  `Client` hold the session with its shared file handle and the client as classes.  `Server` is the worker loop as a state machine over interleaved steps: every
  read or write of the shared session table, of the key list and of the authentication flag, and every
  send, is a step of its own, and any worker may take the next one.  A membership check, the comparison of
  sockets, the play, the closing and the removal are therefore different steps.  `Replies` says for every run what each
  request of any client is answered with.  `Dialogue` follows one client through any interleaving, `Wire` puts its messages into bytes, and `Service` joins the two: from
  the bytes the client prints to the bytes it reads back.  `Completion` constructs complete runs, and
  `Errands` sends a client object through one.
* **`basic_streambuf`** (`StreamBuffer`).  One array with a get and a put area, compaction in place, growth
  and a maximum size, proved to be a queue of characters.
* **`basic_socket_streambuf`** (`SocketBuffer`).  Fixed get and put areas over a socket and a clock whose
  behaviour is an arbitrary script: partial sends, would-block, failed waits, failures, expiry.

Characters stand for bytes throughout.  Header maps keep insertion order and a rewritten key keeps its
place, as Python's dictionaries do.  The contents of files, the text form of session ids (`World.idText`,
`World.idOf`), the names that exist but cannot be opened, the stream of connections, the ids that are generated
(fresh ones) and what arrives on a socket are parameters.  Uncaught errors of a worker are a step to a worker that has stopped.

## What the code does that its form does not suggest

* `.` matches CR, so the last group of a request or status line keeps the CR before the newline, and the
  received version and status text are the sent ones with a CR (src/model-2.3/dian/base.py:78-80).  The
  round trips are stated with that CR.
* A message with an empty header map is printed with one blank line too many
  (src/model-2.3/dian/base.py:120, 142).  Its reader leaves CR LF in the stream and the next head read
  from there is invalid; the replies to OPTIONS and TEARDOWN are of this kind.
* A status text may hold digits; what breaks the round trip is a number between two spaces with something
  after it, since the first group is greedy.  `Lines.ResponseHeadRoundTrip` gives the exact condition.
* A range whose end is 0 is taken as ending two bytes past the file (src/model-2.3/dian/base.py:224-225),
  so asking for the first byte alone announces two bytes more than there are and sends the whole file.
* A range that starts exactly two past its end reads with a size of -1 and sends all the rest of the file; one that
  starts later sends its head, and then reading the body raises an error that stops the worker
  (src/model-2.3/dian/base.py:75-76, 222-235).  `Sessions.RangeSends` gives what every range sends.
* The reply to OPTIONS has no headers, so a client that calls `options` finds its blank line before the next reply,
  and that call fails (src/model-2.3/dian/server.py:49-51, src/model-2.3/dian/client.py:58-64).
* The membership test and the lookup after it are not one step.  The lookup can miss only a session of
  another connection, and then the worker that asked stops (src/model-2.3/dian/server.py:72-75, 89-92).
  `Races.MissFromStart` gives a run from the start in which it does.
* A SETUP that read the authentication flag before it was turned on still enters the table afterwards
  (src/model-2.3/dian/server.py:56-64).  `Races.LateFromStart` gives a run from the start in which it does.
* A session whose worker stopped, was reset, or tore down another session of the same connection can never be
  removed again (src/model-2.3/dian/server.py:75, 92, 98, 101-104).
* `read_until` does not count the character that reaches its own maximum
  (src/model-2.3/dian/base.py:36-38).
* A refused `prepare` may already have moved the bytes (src/cpp/include/asio/basic_streambuf.hpp:322-340),
  while its documentation describes only the error.
* After a partly sent flush that fails, the next flush sends the put area again from its start
  (src/cpp/include/asio/basic_socket_streambuf.hpp:484-523).

## Model

| member | source | states |
|---|---|---|
| Patterns.MatchIsAWay | src/model-2.3/dian/base.py:78-80 | what the pattern engine finds is a way to match: every piece takes characters of its class, as many as it may, and the pattern ends at the end |
| Patterns.MatchIsEarliest | src/model-2.3/dian/base.py:78-80 | no way to match that greedy and lazy repetition prefer is passed over |
| Patterns.MatchExactly | src/model-2.3/dian/base.py:78-80 | a match is found with these ends if and only if it is a way and no preferred one exists |
| Patterns.MatchFails | src/model-2.3/dian/base.py:96-98 | the search fails if and only if there is no way at all |
| Text.StripAround | src/model-2.3/dian/base.py:111 | strip() removes exactly the white space around a trimmed stretch |
| Text.UntilFrom | src/model-2.3/dian/base.py:29-43 | the place where reading stops is the first at which the delimiter, the cap or the end of input is reached |
| Text.LineEndAt | src/model-2.3/dian/base.py:41-42 | a line without a newline inside, followed by CR LF, is read back whole and nothing else with it |
| Decimal.ParsePrint | src/model-2.3/dian/base.py:26 | int(str(n)) is n for every integer |
| Decimal.ParsesExactly | src/model-2.3/dian/base.py:26 | a text is read as n if and only if it is a sign that fits or none, then zeros, then what is printed for n without its sign |
| Headers.PutPlace | src/model-2.3/dian/base.py:111 | a new key goes last, a known one keeps its place among the others, no key is ever twice in the map |
| Headers.PutAllRebuilds | src/model-2.3/dian/base.py:103-114 | inserting the entries of a map one by one in order rebuilds it |
| Lines.RequestHeadRoundTrip | src/model-2.3/dian/base.py:78-102 | a printed request line gives back method, url and version + CR if and only if the fields are well formed |
| Lines.RequestHeadParsesExactly | src/model-2.3/dian/base.py:78 | for every text: it is read as this method, url and version if and only if it spells them, perhaps with a final newline, the method is of capitals, url and version are not empty and no space is in the version but perhaps at its end |
| Lines.HeaderLineRoundTrip | src/model-2.3/dian/base.py:79 | a printed header line gives back key and value if and only if the key is non-empty, trimmed, without newline and without colon after its first character, and the value is trimmed and without newline |
| Lines.HeaderLineParsesExactly | src/model-2.3/dian/base.py:79 | for every text: it is read as this key and value if and only if they are what is before and after its first colon behind the first character, stripped |
| Lines.ResponseHeadRoundTrip | src/model-2.3/dian/base.py:80 | a printed status line gives back version, status and text + CR if and only if the version is non-empty, no newline occurs and no number between spaces precedes the end of the text |
| Lines.ResponseHeadParsesExactly | src/model-2.3/dian/base.py:80 | for every text: it is read as this version, status and text if and only if it spells them, the status in any digits of that value, and no number between spaces comes later but at the very end |
| Messages.HeadersRoundTrip | src/model-2.3/dian/base.py:103-114 | a printed header map is read back equal, leaving exactly what follows, if and only if it is non-empty and every entry is well formed |
| Messages.NextHeaderLine | src/model-2.3/dian/base.py:103-114 | whatever the next line is: with a colon behind its first character it is an entry, stripped; without, it ends the headers and is taken |
| Messages.EmptyHeadersLeaveABlankLine | src/model-2.3/dian/base.py:120 | without headers one of the two blank lines stays unread |
| Messages.RequestRoundTrip | src/model-2.3/dian/base.py:92-122 | a printed request is read back, leaving exactly its body and what follows, if and only if it is well formed |
| Messages.ResponseRoundTrip | src/model-2.3/dian/base.py:141-173 | the same for responses, with the announced length |
| Messages.AnyRequest | src/model-2.3/dian/base.py:92-117 | whatever the first line is: a request line of the right form starts a request with the headers after it; any other is taken and is an error |
| Messages.AnyResponse | src/model-2.3/dian/base.py:149-173 | the same for responses, which fail on a Content-Length that is no number |
| Messages.FramingExact | src/model-2.3/dian/base.py:48-62 | reading the body recovers it whatever follows if and only if the announced length is the body's length (or none is announced and there is no body) |
| Messages.EmptyHeadersBreakTheStream | src/model-2.3/dian/base.py:141-157 | after a response without headers the next read starts at a blank line and fails |
| Messages.RequestStream | src/model-2.3/dian/base.py:92-122 | any list of well-formed requests printed back to back is read back, in order, and nothing else is consumed |
| Messages.ResponseStream | src/model-2.3/dian/base.py:141-173 | any list of well-formed, framed responses is read back, head and body in turn, with every body, ending exactly at the next message |
| Readers.Socket.Recv | src/model-2.3/dian/base.py:32 | delivers a prefix of what is to come, empty only at the end; a negative size is an error |
| Readers.SocketStreamReader.ReadUntil | src/model-2.3/dian/base.py:29-43 | the byte-by-byte loop reads exactly the prefix that the stopping rule gives and counts as the code counts |
| Readers.SocketStreamReader.Read | src/model-2.3/dian/base.py:48-55 | takes what is asked for, at most what the limit leaves, and charges the whole request to the count |
| Readers.SocketStreamReader.ReadAll | src/model-2.3/dian/base.py:57-62 | reads the body with the announced length, as the framing results use it |
| Readers.PaidForExactly | src/model-2.3/dian/base.py:29-62 | a call takes no more from the socket than it counts and stays within the limit if and only if it is no read of size below -1 and no read_until at the limit or cut short by its own maximum |
| Readers.BoundedRun | src/model-2.3/dian/base.py:29-62 | over any run of such calls a reader with limit N takes at most N bytes from the socket, at most what it counted |
| Readers.ReadHeaders | src/model-2.3/dian/base.py:103-113 | the header loop over a socket does what the parsing function says |
| Readers.UnparseRequest | src/model-2.3/dian/base.py:92-117 | the request reader over a socket returns what the parsing function says and leaves what it leaves |
| Readers.UnparseResponse | src/model-2.3/dian/base.py:149-173 | the same for responses, with a body reader limited to the announced length |
| Readers.ReceiveResponse | src/model-2.3/dian/base.py:149-173 | one response and then its whole body are read off the stream as the parsing functions say |
| Ranges.FileOfExactly | src/model-2.3/dian/base.py:190-197 | the file asked for is F if and only if the address is diantp://host/F with both parts non-empty and without slash, for every text |
| Ranges.RangeParsesExactly | src/model-2.3/dian/base.py:219-223 | a range text asks for a start, and for an end if one is given, if and only if it is npt, an equals sign between optional spaces, digits, a dash, digits or none, optional spaces and perhaps a newline, with these values |
| Sessions.File.Read | src/model-2.3/dian/base.py:75-76 | the next n bytes, or as many as there are; -1 for all that are left; a smaller size is an error |
| Sessions.FileStreamReader.ReadAll | src/model-2.3/dian/base.py:75-76 | from where the file stands, as many bytes as the limits are apart or as there are left; all of them if the limits are one the wrong way apart or there is no upper one; an error if they are further the wrong way |
| Sessions.Session.Play | src/model-2.3/dian/base.py:208-235 | sends the reply that the file and the headers kept from SETUP determine, wherever earlier plays left the file handle; fails on an unreadable or open-ended range and then sends nothing, and on a range that starts more than two past its end, after the head |
| Sessions.Session.SendWhole | src/model-2.3/dian/base.py:210-218 | sends the whole file and rewrites the kept headers |
| Sessions.Session.SendRange | src/model-2.3/dian/base.py:222-235 | sends the stretch asked for and leaves the kept headers; fails exactly if it starts more than two past its end |
| Sessions.Session.Respond | src/model-2.3/dian/base.py:134-139 | head, then the stretch of the file; the head alone if reading the stretch is an error |
| Sessions.RangeSends | src/model-2.3/dian/base.py:75-76 | what every range sends, for every start, end and file: from the start to one past the end as far as the file goes, all the rest from a start two past the end, nothing otherwise |
| Sessions.PlaysAsWritten | src/model-2.3/dian/base.py:219-235 | of all non-empty ranges exactly those are answered that are well written with an end, with the reply to their two numbers, and exactly those of them fail half-way that start more than two past their end |
| Sessions.NoRangePlaysWhole | src/model-2.3/dian/base.py:208-218 | an empty range is answered as none is: with the whole file |
| Sessions.RangeHeadersTell | src/model-2.3/dian/base.py:226-233 | the headers of a range reply tell start, end, size and length, each in its place |
| Sessions.RangeAnnounces | src/model-2.3/dian/base.py:224-229 | the announced length of a range reply |
| Sessions.RangeFramedExactly | src/model-2.3/dian/base.py:219-235 | a range reply announces as many bytes as it sends in exactly the stated cases |
| Sessions.RangeExact | src/model-2.3/dian/base.py:219-235 | a range inside the file with a positive end sends file[start..end] inclusive and announces that length |
| Sessions.FirstByteAlone | src/model-2.3/dian/base.py:224-225 | range 0-0 sends the whole file and announces two bytes more |
| Sessions.WholeExact | src/model-2.3/dian/base.py:210-218 | a play without range sends the whole file with the matching length |
| Sessions.WholeHeadersTwice | src/model-2.3/dian/base.py:212-216 | rewriting the kept headers a second time changes nothing |
| Sessions.PlaysAreHistoryFree | src/model-2.3/dian/base.py:208-235 | in any sequence of plays of one session every reply is the one it would get as the first |
| Sessions.PartitionPlays | src/model-2.3/dian/base.py:219-235 | consecutive ranges that cut a file give bodies that join to the file and lengths that add up to its size if and only if the first range is not the first byte alone |
| Client.Client.Request | src/model-2.3/dian/client.py:21-23 | sends the printed request and returns the head of the next response, its body unread, with a reader for as many characters as it announces |
| Client.Client.LetGo | src/model-2.3/dian/base.py:64-65 | a response that is let go of takes the rest of its body off the stream; a length that raises an error takes nothing |
| Client.Client.Setup | src/model-2.3/dian/client.py:25-34 | takes the session from the reply exactly when it is a 200 with a Session header; the number of the request advances; the stream goes on after the reply |
| Client.Client.Play | src/model-2.3/dian/client.py:36-46 | records and sends the request, and returns the reply with its body unread exactly on 200 or 206 |
| Client.Client.Teardown | src/model-2.3/dian/client.py:48-53 | succeeds exactly on a reply of 200 |
| Client.Client.Options | src/model-2.3/dian/client.py:58-64 | returns the reply with its body unread exactly on 200 |
| Server.InitialInv | src/model-2.3/dian/server.py:15-24 | the server starts in a state that satisfies the invariant |
| Server.InvNext | src/model-2.3/dian/server.py:32-104 | every step of every worker keeps the invariant: each connection has one worker, replies match requests, ids in the table are owned, an owner's session stays there, a closed file belongs to a session that is removed or about to be |
| Guarantees.InvRun | src/model-2.3/dian/server.py:32-104 | the invariant holds after every run |
| Guarantees.LaterRun | src/model-2.3/dian/server.py:32-104 | over any run histories only grow and entries keep owner, file and request until removed |
| Guarantees.OwnershipIsStable | src/model-2.3/dian/server.py:63-64 | an inserted session stays with its connection and file until it is removed, whatever other workers do |
| Guarantees.OnlyTheOwnerRemoves | src/model-2.3/dian/server.py:95-98 | only the worker that serves the session's own connection removes it, after its file was closed |
| Guarantees.RemovedStaysOut | src/model-2.3/dian/server.py:97 | a torn-down id never re-enters the table |
| Guarantees.NoUseAfterClose | src/model-2.3/dian/base.py:208-239 | in every run each file is closed at most once and every PLAY about to read finds its session present, its file open and its connection open, also between close and pop |
| Guarantees.StopsExactly | src/model-2.3/dian/server.py:36-98 | in any step a worker stops if and only if it reads an invalid head or the end of input, or the session text is no id, the range is unreadable or open-ended or starts more than two past its end, the name cannot be opened, or the session was removed between check and lookup |
| Guarantees.ResetsAnywhere | src/model-2.3/dian/server.py:36-43 | a connection may be found reset wherever its worker reads or sends; the worker is then free, the connection closed without another reply, and the table keeps its ids |
| Guarantees.MissedLookupIsForeign | src/model-2.3/dian/server.py:72-75 | the lookup after the check can only miss a session of another connection |
| Guarantees.LookupCanMiss | src/model-2.3/dian/server.py:89-97 | the owner's pop between another worker's check and lookup stops that worker, which would have gone on had it been first |
| Races.MissFromStart | src/model-2.3/dian/server.py:72-97 | a run from the start of a server with two workers reaches that race, and both orders of its last steps |
| Races.LeftFromStart | src/model-2.3/dian/server.py:36-43 | runs from the start, by a reset and by an invalid head, that leave a session in the table for good |
| Guarantees.AbandonedExactly | src/model-2.3/dian/server.py:75-104 | a session of the table is abandoned by a step if and only if its worker stops, is reset, or closes its connection for another session |
| Guarantees.AbandonedStays | src/model-2.3/dian/server.py:95-104 | an abandoned session stays in the table in every later run |
| Guarantees.OneReplyPerRequest | src/model-2.3/dian/server.py:44-100 | on every connection of every run each request read has exactly one reply, but for at most the last one, which is still being handled or was left by a worker that stopped or was reset; a worker on a connection owes one exactly while it handles a request |
| Guarantees.TableIsConserved | src/model-2.3/dian/server.py:64-97 | the table holds exactly the ids inserted and not removed |
| Ledger.GoBalances | src/model-2.3/dian/server.py:44-98 | one step of a worker changes the number of sessions, up to those not settled, by one more for a 200 to SETUP and one less for a 200 to TEARDOWN, and by nothing otherwise |
| Ledger.TableFollowsTheReplies | src/model-2.3/dian/server.py:63-97 | after any run the size of the table is the number of SETUPs answered 200 (or whose answer a reset lost) less the number of TEARDOWNs answered 200, plus the workers between table and reply |
| Provenance.TracedRun | src/model-2.3/dian/server.py:52-66 | over any run sessions keep their grounds, and once every session is checked all later ones are |
| Provenance.SessionsHaveGrounds | src/model-2.3/dian/base.py:190-206 | every live session of every run came from a SETUP with a Transport header, an address of the accepted form and an existing file, and from an accepted key if it was asked for one |
| Provenance.KeysGrow | src/model-2.3/dian/server.py:29-30 | an accepted key stays accepted |
| Provenance.AuthenticationCoversExactly | src/model-2.3/dian/server.py:26-27 | turned on over an empty table, authentication covers every later session of every run if and only if no SETUP that can still succeed is already past the flag |
| Provenance.LateSetupGetsIn | src/model-2.3/dian/server.py:56-64 | from any state with such a SETUP, a run that is constructed brings it into the table unchecked |
| Races.LateFromStart | src/model-2.3/dian/server.py:26-64 | a run from the start of a server with one worker turns authentication on over an empty table and ends with an unchecked session in it |
| Dialogue.OthersLeaveAlone | src/model-2.3/dian/server.py:32-104 | steps of other workers leave a connection, its worker and its sessions exactly as they are |
| Dialogue.TrackRun | src/model-2.3/dian/server.py:32-98 | over any interleaving, a SETUP-plays-TEARDOWN dialogue is at every moment at a stage where its replies so far are the ones due |
| Dialogue.DialogueIsAnswered | src/model-2.3/dian/server.py:32-98 | under every interleaving, an unbroken connection on which such a dialogue was read has exactly the replies due to it, which depend on nothing but the dialogue, at most the last outstanding with a worker that has not stopped; the session is in the table until TEARDOWN; a key is needed only if authentication is not off throughout |
| Dialogue.DialogueIsFinished | src/model-2.3/dian/server.py:32-98 | once such a dialogue was read, whatever runs then, every request of it has its reply, unless its worker has taken fewer steps since than the last request needs (nine for a SETUP, five for any other), and then it has another to take |
| Dialogue.StatusesOfReplies | src/model-2.3/dian/client.py:25-53 | those replies are 200, then 206 for every play with the announced length right, then 200 |
| Dialogue.PlayIsFramed | src/model-2.3/dian/base.py:208-235 | every in-range play is answered 206 and framed |
| Dialogue.AnsweredWithinNineOwnSteps | src/model-2.3/dian/server.py:36-104 | for any request of any client, whatever runs in between, nine of its own steps bring its reply, unless the worker stops on an error or the connection is reset |
| Dialogue.NobodyIsBlocked | src/model-2.3/dian/server.py:32-104 | in every state of the invariant a worker that has not stopped can take what its place calls for, whatever comes and whatever the others do, and there is always something |
| Replies.KeyComparedExactly | src/model-2.3/dian/server.py:60-62 | a SETUP whose key is compared goes on if and only if its Authorization is the word Bearer and one of the keys; otherwise it is answered 403 and nothing else changes on any connection |
| Replies.CheckedSessionsHaveKeys | src/model-2.3/dian/server.py:29-30 | in every run from the start, each session in the table whose key was compared carries Bearer and the key of some add_auth of that run |
| Replies.EveryReplyIsCalledFor | src/model-2.3/dian/server.py:44-98 | in every run from the start, each reply on each connection is the one that its request and the state at a moment of its handling call for: 400 for other methods and refused addresses, 200 for OPTIONS, 461, 401, 403, 404 with an id in its Session header that was given to this worker and never entered the table, 453, 454, 455, each with its condition, 200 for SETUP and TEARDOWN, and for PLAY the reply of the session |
| Replies.AnsweredSetupWasLetPast | src/model-2.3/dian/server.py:56-65 | a SETUP answered 200, 400 or 404 was handled at a moment when no key was asked for or when it had one |
| Replies.OptionsIsAnswered | src/model-2.3/dian/server.py:49-51 | in every run an OPTIONS that is answered is answered 200 without headers |
| Replies.PlayLeavesSessions | src/model-2.3/dian/base.py:208-235 | a play leaves all sessions as they are, but that a whole one rewrites five of the headers its session keeps, which then tell the size, and leaves the others |
| Wire.SetupPrints | src/model-2.3/dian/client.py:25-31 | the client's SETUP is a well-formed request with its url, the transport, and the key after Bearer if there is one |
| Wire.PlayPrints | src/model-2.3/dian/client.py:36-43 | the same for PLAY: the session, and the range if one is asked for |
| Wire.TeardownPrints | src/model-2.3/dian/client.py:48-51 | the same for TEARDOWN |
| Wire.OptionsPrints | src/model-2.3/dian/client.py:58-60 | the client's OPTIONS is read back by the server as it is |
| Wire.RequestsAreNumbered | src/model-2.3/dian/client.py:25-60 | each of the four requests carries a CSeq that reads as the number it was made with |
| Wire.ReplySendable | src/model-2.3/dian/server.py:65-82 | every reply of a dialogue but the one to TEARDOWN comes back from its print, framed |
| Wire.RepliesComeBack | src/model-2.3/dian/client.py:21-53 | the client reads back all replies of its dialogue in order with every body, and stops where they end, but for the blank line after the reply to TEARDOWN |
| Service.ClientIsHeard | src/model-2.3/dian/client.py:21-53 | what the client prints is read by the server, to the last character, as a dialogue of the kind that is answered |
| Service.ErrandIsNumbered | src/model-2.3/dian/client.py:21-53 | the request number i of an errand, as the server reads it, carries the number i |
| Service.ReadsAsPrinted | src/model-2.3/dian/server.py:36-43 | while the dialogue is on its way, a worker that parses the client's bytes reads the client's next request and never an invalid head |
| Service.ServingStep | src/model-2.3/dian/server.py:44-98 | each step of a dialogue's worker uses up one of the steps that are left on its connection, or three when a SETUP finds authentication off |
| Service.FedRun | src/model-2.3/dian/server.py:32-98 | over any run that feeds a connection the bytes of a printed dialogue the dialogue stays on its way, and its steps there are among those that were left, exactly those with authentication on |
| Service.CanAlwaysGoOn | src/model-2.3/dian/server.py:36-98 | while its worker is on the connection, some step there is possible that the client's bytes allow |
| Service.ClientIsServed | src/model-2.3/dian/client.py:21-53 | end to end: in every run in which the connection is fed what the client prints and is not reset, whatever else goes on, the replies so far are 200, 206 for each in-range play with the bytes of the file, 200, and are read back whole; while one is missing on an accepted connection, another step on it is possible and fewer were taken than six for each request and four; never more than two beyond |
| Completion.Finish | src/model-2.3/dian/server.py:36-98 | from any point of any interleaving at which a dialogue is on its way, its own worker's steps alone bring it to its end |
| Completion.ErrandCompletes | src/model-2.3/dian/client.py:21-53 | every possible errand is served in a run that is constructed from the start of the server, until no step is left on the connection, with all replies sent; with authentication on it takes six steps for each request and six more |
| Errands.SetUp | src/model-2.3/dian/client.py:25-34 | on the replies due to its errand the client's SETUP succeeds and learns the session |
| Errands.PlayNext | src/model-2.3/dian/client.py:36-46 | on the replies due, the next play succeeds and its body is the stretch asked for |
| Errands.TearDown | src/model-2.3/dian/client.py:48-53 | on the replies due, the teardown succeeds, leaving one blank line |
| Errands.AskOptions | src/model-2.3/dian/client.py:58-64 | on the reply the server gives to OPTIONS, the client's call, which sends the numbered request, succeeds and leaves one blank line |
| Errands.Perform | src/model-2.3/dian/client.py:21-53 | a client object that sets up, plays every range, reads each body and tears down sends exactly the printed requests of its errand, and on the replies due every call succeeds and the bodies are the stretches of the file |
| StreamBuffer.ShiftKeepsExactly | src/cpp/include/asio/basic_streambuf.hpp:321-326 | bytes moved down without moving the offsets keep the content if and only if it repeats with that period |
| StreamBuffer.MoveToStart | src/cpp/include/asio/basic_streambuf.hpp:325 | the overlapping move, in place |
| StreamBuffer.BasicStreambuf.Compact | src/cpp/include/asio/basic_streambuf.hpp:321-326 | the content is at the start of the array afterwards, the other bytes are as the move leaves them |
| StreamBuffer.ShiftSlips | src/cpp/include/asio/basic_streambuf.hpp:321-340 | what the content reads as when the bytes were moved and the offsets were not |
| StreamBuffer.BasicStreambuf.constructor | src/cpp/include/asio/basic_streambuf.hpp:131-141 | starts empty and within the invariant gptr <= egptr <= pptr <= epptr <= max_size, array length max(epptr, 1) |
| StreamBuffer.BasicStreambuf.Size | src/cpp/include/asio/basic_streambuf.hpp:158-161 | the size is the length of the content and at most max_size |
| StreamBuffer.BasicStreambuf.Reserve | src/cpp/include/asio/basic_streambuf.hpp:308-346 | succeeds if and only if size + n <= max_size, and takes exactly the one of its three paths that applies: if n fits behind the put pointer, offsets and bytes all stay; if not, the content is kept and there is room; a refusal leaves the offsets and exactly the shifted bytes |
| StreamBuffer.ReservedMakesRoom | src/cpp/include/asio/basic_streambuf.hpp:308-346 | room that is there is left alone; otherwise the content starts at zero and the room ends where it did or right behind what was asked for |
| StreamBuffer.GrowsByAStep | src/cpp/include/asio/basic_streambuf.hpp:287-298 | a character without room makes the buffer grow by 128 or to its maximum |
| StreamBuffer.BasicStreambuf.Prepare | src/cpp/include/asio/basic_streambuf.hpp:214-219 | the same for the window handed out; a refusal leaves exactly the slipped content |
| StreamBuffer.BasicStreambuf.Commit | src/cpp/include/asio/basic_streambuf.hpp:233-238 | appends the first min(n, room) bytes of the window |
| StreamBuffer.BasicStreambuf.Take | src/cpp/include/asio/basic_streambuf.hpp:247-254 | drops the first min(n, size) characters |
| StreamBuffer.BasicStreambuf.Underflow | src/cpp/include/asio/basic_streambuf.hpp:263-274 | gives the first character and leaves the content |
| StreamBuffer.BasicStreambuf.Overflow | src/cpp/include/asio/basic_streambuf.hpp:283-306 | appends c if and only if size < max_size, whichever growth it asks for; a failure changes nothing at all |
| StreamBuffer.BasicStreambuf.Receive | src/cpp/include/asio/basic_streambuf.hpp:92-104 | preparing room, writing part of it and committing part of that appends what was committed, if the room is there |
| StreamBuffer.BasicStreambuf.MakeRoom | src/cpp/include/asio/basic_streambuf.hpp:287-298 | room for one more character exactly below max_size, by whichever growth is asked for |
| StreamBuffer.BasicStreambuf.Do | src/cpp/include/asio/basic_streambuf.hpp:214-306 | each operation, refused or not, does to content and offsets what it does to the queue and answers as the queue would |
| StreamBuffer.BasicStreambuf.Run | src/cpp/include/asio/basic_streambuf.hpp:62-68 | any run of operations, refused ones included, does to content and offsets what it does to a queue with offsets, and gives its answers; what was there and was committed is what was taken followed by the content, unless a refused prepare changed the content, which it did not if none was refused after characters were consumed |
| StreamBuffer.EarlyKeep | src/cpp/include/asio/basic_streambuf.hpp:321-340 | from what the caller sees: if no prepare was refused, or only before anything was consumed, no refusal changed the content |
| StreamBuffer.QueueConserves | src/cpp/include/asio/basic_streambuf.hpp:233-254 | over any run of the queue what was there and was appended is what was taken followed by the content |
| StreamBuffer.RefusedPrepareExample | src/cpp/include/asio/basic_streambuf.hpp:321-340 | a run in which a refused prepare changes the content |
| StreamBuffer.ReadSizeFits | src/cpp/include/asio/basic_streambuf.hpp:353-359 | the suggested read size always fits and is zero only when nothing is wanted or the buffer is full |
| StreamBuffer.ReadSizeIs | src/cpp/include/asio/basic_streambuf.hpp:353-359 | the suggested size is the limit, or what still fits, or the larger of 512 and the room in the array |
| SocketBuffer.SendsWhatIsTaken | src/cpp/include/asio/basic_socket_streambuf.hpp:490-523 | a flush puts on the wire what the socket takes, up to what is pending, and succeeds if and only if that is all |
| SocketBuffer.RetryRepeats | src/cpp/include/asio/basic_socket_streambuf.hpp:484-523 | after a failed flush a successful one leaves the right bytes on the wire if and only if the first had sent none |
| SocketBuffer.ReceivesExactly | src/cpp/include/asio/basic_socket_streambuf.hpp:414-466 | a refill gets bytes if and only if the first round that is not a ready wait moves some and some are arriving; otherwise that round says how it ends |
| SocketBuffer.EnoughRounds | src/cpp/include/asio/basic_socket_streambuf.hpp:490-523 | as many moving rounds as there are pending bytes are enough for a flush, and each byte costs at most one |
| SocketBuffer.StopsAsItEnds | src/cpp/include/asio/basic_socket_streambuf.hpp:490-523 | a flush that does not get everything out ends at the first round that neither moves bytes nor is a ready wait, as that round says, and leaves the rounds after it |
| SocketBuffer.SocketStreambuf.SendLoop | src/cpp/include/asio/basic_socket_streambuf.hpp:490-523 | the retry loop sends the prefix, ends as and sets the error that the script says |
| SocketBuffer.SocketStreambuf.Overflow | src/cpp/include/asio/basic_socket_streambuf.hpp:468-540 | wire and pending bytes together grow by exactly the character; a failing call puts a prefix on the wire and leaves the put area |
| SocketBuffer.SocketStreambuf.Put | src/cpp/include/asio/basic_socket_streambuf.hpp:468-540 | the same for a single write, which touches the socket only when there is no room |
| SocketBuffer.SocketStreambuf.Sync | src/cpp/include/asio/basic_socket_streambuf.hpp:542-545 | success means that everything is on the wire |
| SocketBuffer.SocketStreambuf.SetBuf | src/cpp/include/asio/basic_socket_streambuf.hpp:547-558 | turns buffering off exactly for (null, 0) with nothing pending, losing nothing |
| SocketBuffer.SocketStreambuf.InitBuffers | src/cpp/include/asio/basic_socket_streambuf.hpp:566-576 | empties both areas behind the putback area |
| SocketBuffer.SocketStreambuf.Close | src/cpp/include/asio/basic_socket_streambuf.hpp:299-306 | the error and the result are those of closing the socket, whatever the flush did; what the flush got out is on the wire; pending bytes are dropped if the socket closes and kept if it does not |
| SocketBuffer.SocketStreambuf.Underflow | src/cpp/include/asio/basic_socket_streambuf.hpp:414-466 | refills only a used-up get area, never overwrites an unread or a putback byte, and keeps unread plus arriving bytes; outcome and error are the script's |
| SocketBuffer.SocketStreambuf.Deposit | src/cpp/include/asio/basic_socket_streambuf.hpp:433-444 | received bytes fit behind the 8-byte putback area of the 512-byte buffer |
| SocketBuffer.SocketStreambuf.Get | src/cpp/include/asio/basic_socket_streambuf.hpp:414-466 | one read gives the next unread byte; with none unread it gives the first arriving one if and only if the first round that is not a ready wait moves bytes and some are arriving, and says what is then unread, arriving and left of the script |
| SocketBuffer.SocketStreambuf.RunWrites | src/cpp/include/asio/basic_socket_streambuf.hpp:468-558 | over any run of writes and flushes that succeed, buffered or not, all characters written are on the wire followed by the pending bytes; all succeed if the socket moves at least once for each byte |
| SocketBuffer.SocketStreambuf.RunReads | src/cpp/include/asio/basic_socket_streambuf.hpp:414-466 | over any run of reads, bytes read followed by unread ones and those to come are what there was; with at least n moving rounds, n reads give the first n bytes, or all there are |

## Left out

- `src/model-2.3/dian/ulits.py`: its thread-local wrapper recurses on construction and has no usable state.
- `src/model-1.1.py`, `src/model-2.3/old`: earlier drafts; they would add only easier copies of the same members.
- `src/cpp/src`, `abase.cpp`, the coroutine helpers and the rest of asio: declarations and forwarding to services whose bodies are not there.
- The server in the form of a class: its workers run concurrently, so it is a state machine over their steps; the objects that one thread uses (readers, session, file, client, buffers) are classes.
- Sending in two parts: the server's steps send a reply at once, although `response` sends head and body separately; only the one worker of a connection writes to it.
- Partial sends of the Python sockets: taken as complete.
- The `max_read` argument of both `unparse` functions: no caller passes it.
- When a reader is collected: the client lets go of a response at the end of the call that got it.
- Character encodings: text and bytes are both sequences of characters, so `encode`, `decode` and their errors are not there.
- Decimal.Parse: underscores, surrounding white space and digits outside ASCII, which `int()` also takes, are not numerals here; a Content-Length with them counts as an error.
- Connection errors other than the reset that the server handles, and a later iteration that reuses an old request after one.
- Files that change while they are open, and names that `os.path.join` treats specially: a file is a name in a map with a constant content, and other names that exist fail to open.
- The generation of ids: fresh ones, in any order; that a printed id reads back as itself is a hypothesis (`Dialogue.FaithfulIds`) of the dialogue results only.
- Dialogue.DialogueIsAnswered: says nothing of connections that were reset, or on which an invalid head was read; the latter is ruled out by Service.ClientIsServed.
- StreamBuffer.BasicStreambuf.Run: its operations commit no more than was written; committing more would add bytes of the window that nobody wrote.
- Both buffers: move construction and assignment, putback, the narrowing to int in pbump and gbump, the wrap-around of a pointer sum in consume, allocator failures, capacity growth policy, the Windows Runtime branch and `connect_to_endpoints`.
- The time-outs themselves: expiry is an entry of the script, not a clock.
