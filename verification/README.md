# yarmproxy in Dafny

yarmproxy is an event-driven proxy for Redis and memcached. It forwards bytes without copying them:
commands keep pointers into a shared read buffer while asynchronous reads and writes are outstanding.
It splits multi-key commands over several backends and puts the replies together in client order.
This project models that machinery for the Redis protocol and proves what it promises.

`dafny verify dfyconfig.toml` verifies the whole project.

## How the model is built

* The read buffer, the commands, the client connection, the backend connections and the pool are classes
  whose methods are named after the handlers of the source. The parsers, the splitting of keys, the ring
  and the hash are loops and functions, as in the source.
* A completion of an asynchronous operation is one step. Every command, each side of the client connection
  and the pool have a `Snapshot` of what can be seen of them between two completions and a relation `Next` that
  says what each completion does; one that cannot happen now does nothing. A method `Step` follows `Next`, and
  a method `Serve` takes any schedule of completions and returns the run. The contract of `Serve` is the
  theorem about all runs: any interleaving, any chunking of the bytes, any failures. It speaks of every state
  of the run, and it names the completion in the schedule that is to blame for a failure or an abort. A
  timeout is an error completion of its operation.
* Bytes are `seq<char>`. A position in a stream stands for a pointer into a buffer. `ReadBuffer` is where
  this is justified: it keeps the stream while it compacts its array in place, and slices handed out stay
  put while their lock is held.
* A "bulk" in a query or a reply is any text the parser takes for one complete bulk string (also with
  leading zeros in its length), unless it is said to be encoded.
* What lies outside becomes a parameter: the endpoint of a key (`locate`), what a backend stores or answers
  (`lookup`, `answers`, `reply`), the hash function of the ring, whether a buffer has room for another
  read (`space` for a backend's in MGET, `room` for the client's in MSET and DEL), and the number of endpoints
  in a batch (`spread`, for the client connection).
  The buffer size is at least 1024 bytes, the smallest the configuration admits.
* `async_write` writes everything or fails.

The files, from the bottom up: `Decimal`, `Resp` (the protocol), `ReadBuffer`, `Net`, `Scatter` (selections,
runs and segments), `MgetSplit`, `MgetGather`, `Mget` and `MgetStops`, `NilReply`, `SingleKey`, `Framing`, `ClientQuery`,
`QueryProgress`, `UsableBytes`, `ClientSteps`, `ClientRuns`, `ClientStops` and `ClientConn` (the query side of a client connection),
`Subqueries`, `MultiKey`, `MsetPairs` and `Mset`, `DelKeys` and `Del`, `Pipeline` (the reply side of a client
connection), `Pool`, `Ring`, `DoobsHash`.

## What turned out not to hold everywhere

* A single-key reply can stop with nothing outstanding: when the part of the reply that must be there
  before it can be parsed, less one byte, takes up two thirds of the buffer. `SingleKey.Serve` shows that
  no run does otherwise, and that the schedule `LongRead` does then.
* An MGET can stop for good although there is room for every read and nothing fails: when what has come of the reply
  of the backend whose turn it is ends exactly at the end of a bulk, the command writes it and starts no other read.
  `Mget.Serve` shows, for every state of every run, that a command whose turn it is and that is not writing has stopped if
  and only if that is so or a read was refused for want of room, and that such a backend has two keys or more;
  `Mget.StoppedForever` that nothing makes it go on; and `MgetStops.Stopping` gives, for every query in which two keys
  belong to one endpoint, a run that stops, with room for every read and without an error. So with room and without
  errors an MGET can stop if and only if two of its keys belong to one endpoint.
* The query side of a client connection can stop for good, with no read, no send and no reply outstanding
  (`ClientRuns.AsleepForever`). For every pipeline and every size of the buffer, some schedule makes it stop if and
  only if `ClientStops.Stops` holds: a run that stops meets the condition (`ClientStops.AsleepBecause`, and
  `ClientConn.Serve` for every state of every run), and for every way to meet it `ClientConn.StopAtSet` or
  `ClientConn.StopInCrowd` gives a run that stops. There are two ways. The pipeline has a SET (or APPEND, SETEX and
  their like) of three bulks or more, anywhere: a read that brings no complete bulk header is not followed by another
  one. Or the buffer can be crowded: bytes that are not enough for a command, or for the next pairs of an MSET or the
  next key of a DEL, and bytes that are done with but not recycled fill two thirds of it, counted from a position
  where the buffer can be emptied. If no command takes more than a third of the buffer, only the SETs remain
  (`ClientStops.SpaciousStops`).
* Replies are in order unless the write of a stats reply fails: `StatsCommand` ignores the error and hands over
  to the next command. `Pipeline.Serve` states that a reply is missing if and only if it is that of a stats command
  whose write failed, so that without stats commands every run is in order; `Pipeline.Losing` gives, for every
  pipeline with a stats command, a run that loses its reply.
* Removing a node from the ring moves only keys that were on it, unless points of two remaining nodes tie
  for a key: the sort leaves the order of equal points open. `Ring.RemapExactly` gives the condition as an
  if-and-only-if, `Ring.CollisionMoves` an instance.

## Model

| member | source | states |
|---|---|---|
| `Resp.ScanBulk` | proxy/redis_protocol.h:30-92 | the constructor's scan of a length line finds the size of the bulk, its present part, that more is needed, or an error, exactly as the grammar of bulk strings says |
| `Resp.ParseBulkExtends` | proxy/redis_protocol.h:30-70 | a verdict on a bulk, once given, is not changed by more bytes |
| `Resp.PrefixOfWhole` | proxy/redis_protocol.h:30-70 | of a whole bulk cut anywhere the parser needs more until the header is there, and knows the full size from then on; it never reports an error |
| `Resp.ParseBulkItems` | proxy/redis_protocol.h:177-196 | the cursor loop finds the sizes of all bulks that start in the text and whose headers are there, at most `max`, and the sum of their full sizes |
| `Resp.ItemsOfPrefix` | proxy/redis_protocol.h:177-196 | any sequence of whole bulks, followed by anything and cut anywhere, shows exactly the bulks whose headers are there |
| `Resp.HeadersInExact` | proxy/redis_protocol.h:177-196 | a bulk is among those found if and only if its header ends before the cut, so all found but the last are there entirely |
| `Resp.ScanArray` | proxy/redis_protocol.h:198-232 | the constructor of an array reads the count digit by digit and then the bulks, with its three outcomes: too short, error, or the view of what is there |
| `Resp.ArrayOfPrefix` | proxy/redis_protocol.h:198-232 | a proper prefix of an array is never an error; it is too short until the count line is there, and then yields exactly the bulks whose headers are there |
| `Resp.CutCompleted` | proxy/redis_protocol.h:253-276 | an array cut at k bytes is `completed()` if and only if all of it is there, and then `total_size()` is its length |
| `Resp.CutOffsets` | proxy/redis_protocol.h:238-243 | the i-th bulk of the view starts where the i-th bulk of the array does |
| `Resp.BulkRoundTrip` | proxy/redis_protocol.h:94-110 | decoding an encoded value (or nil) gives it back, and the encoding is one whole bulk |
| `Resp.ArrayRoundTrip` | proxy/redis_protocol.h:198-276 | parsing the encoding of a list of values gives back the list, completed, with the size of the encoding |
| `Resp.KnownTexts` | proxy/redis_protocol.h:30-110 | literal texts of the protocol: what is printed for a count, a value and nil, and what the parser makes of a bulk, its header, a header cut short, nil and something else |
| `Resp.ArrayShows` | proxy/redis_protocol.h:198-276 | parsing a whole array shows each of its bulks where it is, and that it is completed |
| `Decimal.ValueOfDigits` | proxy/redis_protocol.h:172-176 | a printed count is read back as itself |
| `Decimal.DigitsAreDecimal` | proxy/redis_protocol.h:60-66 | a number below ten is printed as, and read from, its place in "0123456789" |
| `Decimal.Positional` | proxy/redis_protocol.h:60-66 | printed and read, each digit counts ten times as much as the one behind it |
| `ReadBuffer.ReadBuffer.UpdateReceived` | proxy/read_buffer.cc:19-21 | received bytes are appended to the stream and leave what was received before in place |
| `ReadBuffer.ReadBuffer.UpdateParsed` | proxy/read_buffer.h:73-75 | the parse position moves, possibly ahead of what has been received |
| `ReadBuffer.ReadBuffer.UpdateProcessedBytes` | proxy/read_buffer.cc:38-41 | the process position moves by n and nothing else does, whether or not the array is compacted; with a lock held no byte moves |
| `ReadBuffer.ReadBuffer.DecLock` | proxy/read_buffer.cc:50-56 | releasing a lock leaves stream and positions alone, and bytes too while another lock is held |
| `ReadBuffer.ReadBuffer.TryRecycle` | proxy/read_buffer.cc:58-72 | both recycle branches keep the stream and its parse and process positions, and move only the base of the array |
| `ReadBuffer.ReadBuffer.MoveToFront` | proxy/read_buffer.cc:64-65 | the overlapping move brings the unprocessed bytes to the front unchanged |
| `ReadBuffer.ReadBuffer.PushReplyData` | proxy/read_buffer.cc:23-29 | after a reset the buffer holds exactly the given reply, parsed or not |
| `ReadBuffer.ReadBuffer.UnprocessedData` | proxy/read_buffer.h:63-66 | the slice a command sends on is the stream from the process position to the smaller of parsed and received |
| `ReadBuffer.ReadBuffer.UnparsedData` | proxy/read_buffer.h:76-79 | the slice a parser looks at is the stream from the parse position on |
| `ReadBuffer.ReadBuffer.HandOut` | proxy/command.cc:584-587 | locking a slice and counting it as processed leaves its bytes and offset in place |
| `ReadBuffer.ReadBuffer.WhileLocked` | proxy/read_buffer.cc:35-72 | slice stability: while its own lock is held, any sequence of receives, parses, processes and lock changes by others does to the stream, the positions and the locks what these calls do one after another, and leaves the bytes of a slice at their offset |
| `ReadBuffer.OthersKeep` | proxy/read_buffer.cc:35-72 | on the abstract stream: whatever the others do, the start of the array stays, bytes are only appended and positions only advance |
| `ReadBuffer.ReadBuffer.AnyRun` | proxy/read_buffer.cc:19-72 | refinement: any sequence of calls does to the buffer exactly what it does to an unbounded stream with two positions, a lock count and the part that has left the array; the array holds the end of that stream |
| `ReadBuffer.AllAdvance` | proxy/read_buffer.cc:19-72 | on that stream bytes are only appended, positions only advance, and only processed bytes leave the array |
| `MgetSplit.Split` | proxy/redis_mget_command.cc:28-66 | the constructor's loop gives every endpoint the segments of exactly its keys in order and their number, the queue of runs of equal endpoints in key order, and one lock per subquery |
| `MgetSplit.MgetDecodes` | proxy/redis_mget_command.cc:68-114 | parsed by the parser of this project, the query of a subquery is an array of the name "mget", which has the kind of MGET, and the keys one after another |
| `Scatter.RunsSnoc` | proxy/redis_mget_command.cc:60-65 | extending the last run or appending a new one is the run-length form of the endpoints with one more |
| `Scatter.SegmentExtend` | proxy/redis_mget_command.cc:53-58 | a segment that is extended stands for the text of both keys |
| `Mget.MgetCommand.ParserBookkeeping` | proxy/redis_mget_command.cc:177-186 | in every state, for every started backend the bulks still expected are the sum of its counts in the reply queue, so the array header is never parsed twice |
| `Mget.ParseOne` | proxy/redis_mget_command.cc:313-369 | one turn of the parse loop takes the next answer of the front backend if and only if its header is there, moves the positions by its full size, and marks the reply complete exactly at its end |
| `Mget.MgetCommand.ParseReply` | proxy/redis_mget_command.cc:304-380 | parsing the front reply keeps the gather invariant and takes all answers of its run whose headers are there, unless bytes parsed before are still to be written |
| `Mget.MgetCommand.TryReadMoreReply` | proxy/backend_conn.cc:92-98 | a read is started unless the reply is complete or there is no room |
| `Mget.MgetCommand.TryWriteReply` | proxy/command.cc:573-589 | exactly the parsed and received bytes of the front backend are handed to the client, when no write is outstanding |
| `Mget.MgetCommand.BackendReadyToReply` | proxy/redis_mget_command.cc:189-226 | data of the backend whose turn it is is being written afterwards, or else more of it is being read exactly if there is room; data of any other backend changes nothing |
| `Mget.MgetCommand.PassOn` | proxy/redis_mget_command.cc:214-226 | what has been parsed is being written, or, if that is nothing, more is read exactly if there is room |
| `Mget.MgetCommand.NextBackendStartReply` | proxy/redis_mget_command.cc:275-287 | when the next backend's turn comes, its answers that are there are being written; otherwise it is being sent its query or read from, or its reply ends at the end of a bulk, or a read was refused |
| `Mget.MgetCommand.OnWriteReplyFinished` | proxy/redis_mget_command.cc:144-187 | the written bytes are the client's; the command hands over only after the whole answer |
| `Mget.MgetCommand.OnBackendReplyReceived` | proxy/redis_mget_command.cc:228-243 | a chunk is appended to its backend's stream, with the gather invariant kept |
| `Mget.MgetCommand.OnBackendReadError` | proxy/redis_mget_command.cc:228-243 | a read error aborts if the backend is the one replying and turns into nils otherwise |
| `Mget.ErrorReplyBody` | proxy/redis_mget_command.cc:245-252 | the made-up reply is one encoded array of the given number of nils |
| `Mget.MgetCommand.OnBackendRecoverableError` | proxy/redis_mget_command.cc:254-267 | a failed backend answers nil for all its keys and for no other |
| `Mget.MgetCommand.OnWriteQueryFinished` | proxy/redis_mget_command.cc:116-142 | a finished write sends the next segment or starts reading and releases the lock; a failed connect releases it too; other errors abort |
| `Mget.MgetCommand.StartWriteReply` | proxy/redis_mget_command.cc:269-273 | at the front of the pipeline the array prefix is written, no other write being outstanding |
| `Mget.MgetCommand.constructor` | proxy/redis_mget_command.cc:28-114 | the invariant holds when the prefixes of all subqueries are being written |
| `Mget.MgetCommand.Step` | proxy/redis_mget_command.cc:116-380 | every completion keeps the invariant and does what `Next` says: bytes read are appended to their backend alone, segments are sent one after another, only an error completion makes its endpoint fail, written bytes reach the client, and the command ends with the whole answer sent |
| `Mget.MgetCommand.NothingLeft` | proxy/redis_mget_command.cc:71-81 | when the command hands over, all its locks are released and every backend that answered was sent its whole query and read to the end |
| `Mget.MgetCommand.NotDoneYet` | proxy/redis_mget_command.cc:144-187 | until the command hands over some of the answer has not been written |
| `Mget.MgetCommand.WaitsNow` | proxy/redis_mget_command.cc:144-226 | a command whose turn it is and that is not writing has stopped if and only if the reply of its front backend ends at the end of a bulk or a read was refused; in the first case that backend has two keys or more |
| `Mget.StoppedForever` | proxy/redis_mget_command.cc:116-287 | a command that has stopped stays so whatever completes, unless it is aborted |
| `Mget.StarvedBecause` | proxy/backend_conn.cc:92-98 | a read is refused only at a completion that finds no room |
| `MgetStops.Stopping` | proxy/redis_mget_command.cc:144-187 | for every query in which two keys belong to one endpoint there is a run, with room for every read and without an error, that stops |
| `MgetStops.CalmHasRoom` | proxy/backend_conn.cc:92-98 | the completions of such a run find room and make no endpoint fail |
| `Mget.InOrderIsAnswer` | proxy/redis_mget_command.cc:28-66 | the answer bulks in key order, with nils for failed endpoints, are the reply to looking up the keys one by one |
| `Mget.BlameFor` | proxy/redis_mget_command.cc:228-267 | an endpoint counts as failed only after its own connect was refused or its own read failed |
| `Mget.Serve` | proxy/redis_mget_command.cc:28-380 | in every state of every run the client has a prefix of the in-order answer, with nils for the failed endpoints, and (unless aborted) all of it if and only if the command is done; there is one subquery for each located endpoint, sent a prefix of one mget over exactly its keys, all of it when done and not failed; the bulks a started backend still owes are its counts in the reply queue; every failed endpoint has an error completion of its own in the schedule; news of the backend whose turn it is lead to a write or, with room, a read; and the command stops only at the end of a bulk of a backend with two keys or after a completion without room |
| `NilReply.NilReplyFits` | proxy/redis_mget_command.cc:245-258 | for every complete MGET that fits the buffer and every endpoint, the nils of its keys are shorter than the query |
| `NilReply.SetNilReply` | proxy/backend_conn.cc:62-66 | the unchecked copy of that reply stays inside the buffer and fills it with the nils |
| `SingleKey.ParseSimple` | proxy/command.cc:502-546 | the reply parser finds the end of a line or of a bulk, needs more, or refuses |
| `SingleKey.PrefixParses` | proxy/command.cc:502-546 | of a reply cut anywhere the parser needs more until the line, or the length line of a bulk, is there, and then finds its full size, complete exactly when all is there |
| `SingleKey.RedisErrorReply` | proxy/command.cc:298-327 | every error reply is one line that fits any buffer |
| `SingleKey.ErrorLines` | proxy/command.cc:298-327 | the lines for failed connects, writes and reads, spelled out |
| `SingleKey.OtherErrorLines` | proxy/command.cc:298-327 | those for protocol errors and for anything else |
| `SingleKey.TimeoutLines` | proxy/command.cc:298-327 | those for writes and reads that time out |
| `SingleKey.ConnectTimeoutLine` | proxy/command.cc:298-327 | and for a connect that does |
| `SingleKey.KnownReplies` | proxy/command.cc:502-546 | literal replies of every form, with the bytes that must be there, and texts that are none |
| `SingleKey.SingleKeyCommand.TryWriteReply` | proxy/command.cc:573-589 | a write of all unprocessed bytes is started unless one is outstanding or there are none |
| `SingleKey.SingleKeyCommand.TryReadMoreReply` | proxy/backend_conn.cc:92-98 | a read is outstanding afterwards unless the reply is complete or the buffer is two thirds full |
| `SingleKey.SingleKeyCommand.ParseReply` | proxy/command.cc:559-565 | the parse position is the end of the reply as soon as enough is there, and the reply is complete when all of it is |
| `SingleKey.SingleKeyCommand.HandleRead` | proxy/backend_conn.cc:160-185 | received bytes are appended, parsed and passed on; whenever bytes can be written a write is outstanding, and otherwise a read |
| `SingleKey.SingleKeyCommand.OnBackendReplyReceived` | proxy/command.cc:408-432 | the same, from the parsed bytes on |
| `SingleKey.SingleKeyCommand.OnBackendRecoverableError` | proxy/command.cc:471-500 | the error line becomes the reply and is written if it is this command's turn and its query is complete |
| `SingleKey.SingleKeyCommand.OnBackendReadError` | proxy/command.cc:416-423 | a failed read aborts if and only if some of the reply was written before |
| `SingleKey.SingleKeyCommand.OnWriteQueryFinished` | proxy/command.cc:372-406 | when the whole query is sent the reply is read; an error becomes an error reply |
| `SingleKey.SingleKeyCommand.ContinueWriteQuery` | proxy/command.cc:349-369 | more of the query is sent on, unless the backend failed: then the error reply is due once the query is complete |
| `SingleKey.SingleKeyCommand.StartWriteReply` | proxy/command.cc:567-571 | at the front of the pipeline everything that is ready is being written |
| `SingleKey.SingleKeyCommand.OnWriteReplyFinished` | proxy/command.cc:434-460 | the written slice, read from the buffer at this moment, is the next part of the reply; the command is done exactly when all of it is written |
| `SingleKey.SingleKeyCommand.TakeWritten` | proxy/command.cc:447-449 | the bytes under the slice are still those the write was started with |
| `SingleKey.BlameFor` | proxy/command.cc:372-423 | a command answers an error only after a completion with that error |
| `SingleKey.Serve` | proxy/command.cc:408-460 | in every state of every run the client has a prefix of the backend's reply, all of it when done, or of the error line of a completion in the schedule; unless the header is too long for the buffer, a read or a write is outstanding while the reply is unfinished, and if it is too long, reading all but its last byte leaves nothing outstanding |
| `SingleKey.LongHeader` | proxy/backend_conn.cc:92-98 | with a longer header the run of that schedule stops with nothing outstanding |
| `Framing.BasicNames` | proxy/command.cc:64-76 | the ten names of basic commands have that kind |
| `Framing.SetNames` | proxy/command.cc:78-83 | the six names of SET and its like have the kind of SET |
| `Framing.OtherNames` | proxy/command.cc:85-94 | so do the names of MSET, MGET, DEL and its like, and yarmstats |
| `Framing.NoOtherNames` | proxy/command.cc:64-103 | no other name in lower case has a kind |
| `Framing.AnyCase` | proxy/command.cc:97-103 | names that differ only in the case of the letters A to Z have the same kind |
| `Framing.CreateOnPrefix` | proxy/command.cc:143-220 | what is created from the first k bytes of a command (with anything after it) is determined by k: nothing yet, or its kind with the bulks it takes and the bytes they end at |
| `Framing.CreateSet` | proxy/command.cc:183-188 | an array whose first bulk is "$3\r\nset\r\n", cut anywhere behind its key, gives a SET with exactly the bulks whose headers are there |
| `Framing.CreateAt` | proxy/command.cc:143-220 | the same at any command boundary of a pipelined stream |
| `Framing.AtMark` | proxy/client_conn.cc:159-189 | the bytes from a bulk boundary on are the remaining bulks of that command and then the following commands |
| `Framing.ItemsAt` | proxy/redis_mset_command.cc:306-341 | from any bulk boundary on, the item parser sees exactly the remaining bulks of the command whose headers are there |
| `ClientConn.MakeCommand` | proxy/command.cc:143-220 | command creation on the received bytes, through the parsers |
| `ClientConn.ClientConnection.TryReadMoreQuery` | proxy/client_conn.cc:86-109 | a read is started, with a lock, unless one is outstanding or the buffer is two thirds full |
| `ClientConn.ClientConnection.ProcessUnparsedQuery` | proxy/client_conn.cc:159-189 | commands are created at the end of the pipeline, each from just the bulks that are there, until the queue is full or nothing more can be created; a read is outstanding afterwards where one is needed and there is room |
| `ClientConn.ClientConnection.StartCommand` | proxy/client_conn.cc:174-178 | a new command takes its bulks, gets one lock per send and starts where the previous one ended |
| `ClientConn.ClientConnection.HandleRead` | proxy/client_conn.cc:191-261 | a read of any size goes to the last command and then to new ones, with positions, locks and forwarded bytes in step; only a SET that waits for a bulk header gets nothing, and then no read is started |
| `ClientConn.ClientConnection.ParseUnparsedPart` | proxy/redis_set_command.cc:40-58 | SET takes exactly the bulks whose headers are there, up to its last |
| `ClientConn.ClientConnection.ContinueWriteQuery` | proxy/client_conn.cc:231-246 | the new part of the last command is sent on under a lock, or skipped if its backend failed, and processed catches up |
| `ClientConn.ClientConnection.NextBatch` | proxy/redis_mset_command.cc:306-319 | the next batch has exactly the bulks whose headers are there, an even number for MSET and only complete ones for DEL |
| `ClientConn.ClientConnection.BatchCommand` | proxy/redis_mset_command.cc:327-338 | the process position passes the parse position only under the batch's locks, and ends at the smaller of parsed and received |
| `ClientConn.ClientConnection.ProcessUnparsedPart` | proxy/redis_del_command.cc:273-309 | MSET and DEL take exactly that batch |
| `ClientConn.ClientConnection.HandleEof` | proxy/client_conn.cc:199-209 | a read ended by end-of-file keeps its lock |
| `ClientConn.ClientConnection.OnWriteQueryFinished` | proxy/command.cc:372-406 | a finished send releases one lock, never at zero, and a read is started exactly when the command asks for one, no lock is left and there is room |
| `ClientConn.ClientConnection.RotateReplyingCommand` | proxy/client_conn.cc:111-132 | the front command leaves and the received commands that fit are created |
| `ClientConn.ClientConnection.Step` | proxy/client_conn.cc:86-261 | every completion does what `Next` says: a read adds its bytes and grows the last command or appends new ones, a finished send is one send less, the front command leaves alone, end-of-file keeps its lock, and only a failed read aborts |
| `ClientConn.Serve` | proxy/client_conn.cc:86-261 | for every pipeline, every split into reads and every order of completions, in every state: the commands created are the first of the pipeline, the bulks taken end at the parse position (bytes received less the bytes in the buffer, plus the parse offset), the last command is complete if and only if all of it was parsed and received, it had enough bytes to be created and has taken all the bulks it can, nothing more can be created unless 16 are active, processed is the smaller of parsed and received, single-key backends are sent exactly their command, whatever is being sent is in the buffer, the buffer starts where all bytes before can be used on their own, and the lock count is the outstanding read (and those ended by end-of-file) plus the unfinished sends; a run stops for good only if `Stops` holds |
| `ClientConn.Reach` | proxy/client_conn.cc:86-261 | from any state without failures there is a schedule that brings the bytes up to any position and completes everything else, so that the connection waits for the client only or has stopped |
| `ClientConn.StopAtSet` | proxy/redis_set_command.cc:40-58 | for every pipeline with a SET of three bulks or more, at any index, and every buffer there is a run that stops for good |
| `ClientConn.StopInCrowd` | proxy/client_conn.cc:86-94 | for every way to crowd the buffer there is a run that stops for good |
| `ClientRuns.CutDoesNotMatter` | proxy/client_conn.cc:159-261 | two connections that have received the same number of bytes of the same pipeline, however cut and with whatever completions, have created the same commands and parsed equally far, unless a pipeline is full |
| `ClientRuns.BlameFor` | proxy/client_conn.cc:199-209 | only a failed read aborts the connection |
| `ClientRuns.AsleepForever` | proxy/client_conn.cc:86-132 | a connection with no read, no send and no reply outstanding, the counts a DEL waits for included, stays so whatever completes |
| `ClientStops.AsleepBecause` | proxy/client_conn.cc:86-94 | any state in which it has stopped meets `Stops`: a SET of three bulks or more, or bytes that crowd the buffer |
| `ClientStops.SpaciousStops` | proxy/client_conn.cc:86-94 | if no command takes more than a third of the buffer, `Stops` holds if and only if the pipeline has a SET of three bulks or more, at any index |
| `ClientStops.SetStops` | proxy/client_conn.cc:223-260 | a SET cut behind its key, with the key sent on, is stopped by a read of one byte |
| `ClientStops.CrowdStops` | proxy/read_buffer.cc:58-72 | bytes that crowd an empty buffer stop the connection once everything else has completed |
| `ClientStops.SqueezedCrowds` | proxy/read_buffer.cc:58-72 | at any command boundary, any number of commands (also none) and too little of the next one crowd the buffer if together they fill two thirds of it and the rest is not moved to its start |
| `ClientStops.UsableAt` | proxy/client_conn.cc:159-261 | how many of the bytes at hand have been used is determined by their number, whatever the reads that brought them |
| `UsableBytes.UsedIsFull` | proxy/read_buffer.cc:58-72 | the process position, to which recycling moves the start of the buffer, is one up to which all bytes can be used on their own |
| `ClientSteps.MsetBatchIsPairs` | proxy/redis_mset_command.cc:306-319 | a batch of the client connection for an MSET is the pairs that the MSET command takes |
| `ClientSteps.DelBatchIsKeys` | proxy/redis_del_command.cc:273-286 | a batch for a DEL is the keys that the DEL command takes |
| `Subqueries.PushSubquery` | proxy/redis_mset_command.cc:55-82 | after an item is pushed the batch has one subquery for every endpoint seen, each with segments that are the text of exactly the items it owns, and the subqueries of earlier batches are as they were |
| `Subqueries.PushBatch` | proxy/redis_mset_command.cc:327-332 | after a batch every item is owned by one new subquery of its endpoint, endpoints differ, and only the last item may lack bytes |
| `MultiKey.Activate` | proxy/redis_mset_command.cc:286-304 | each new subquery writes the prefix for its count, and all but an incomplete last one are complete |
| `MultiKey.PendingLast` | proxy/redis_mset_command.cc:206-211 | the last pending subquery, once everything is parsed, is the only one and answers |
| `MultiKey.Advance` | proxy/redis_mset_command.cc:244-280 | the phases of a subquery after a write: next segment, wait for more of the value, or read the reply; what is sent, unsent and missing always makes up its query, and the assertion on the phase never fails |
| `Subqueries.ItemsFrom` | proxy/redis_protocol.h:177-196 | parsing what has arrived of a command from any of its bulks on shows exactly the bulks whose headers are in |
| `MsetPairs.PairsInExact` | proxy/redis_mset_command.cc:306-319 | a pair can be taken if and only if its key and the header of its value have arrived |
| `MsetPairs.NextPairs` | proxy/redis_mset_command.cc:306-319 | parsing what has arrived, less an odd bulk, finds exactly the pairs that can be taken |
| `MsetPairs.FirstPairs` | proxy/redis_mset_command.cc:84-98 | so does the constructor, and they are the bulks that `CreateCommand` takes |
| `Mset.MsetCommand.constructor` | proxy/redis_mset_command.cc:84-98 | subqueries are started for exactly the pairs that command creation takes from the bytes received, whatever their number |
| `Mset.MsetCommand.OnWriteQueryFinished` | proxy/redis_mset_command.cc:228-280 | a finished write advances its subquery alone, a refused connect makes it fail, other errors abort; a client read is started exactly when the query is incomplete and no subquery is being written to |
| `Mset.MsetCommand.OnBackendRecoverableError` | proxy/redis_mset_command.cc:161-190 | a failed connect answers if it is the last pending subquery, leaves otherwise, and waits while its value is still arriving |
| `Mset.MsetCommand.ContinueWriteQuery` | proxy/redis_mset_command.cc:113-150 | after more bytes of the tail value the tail is complete exactly when all of it is there, and its bytes are being sent on unless its connect failed |
| `Mset.TailGrown` | proxy/redis_mset_command.cc:118-149 | the tail is sent exactly the part of its value that arrived, or drops it if its connect failed, and its assertion on the phase never fails |
| `Mset.MsetCommand.ProcessUnparsedPart` | proxy/redis_mset_command.cc:306-341 | all pairs that the parser finds in the received bytes are taken, and if there are none a read is started unless a subquery is being written to |
| `Mset.MsetCommand.HandleRead` | proxy/redis_mset_command.cc:113-150 | client bytes go to the tail until its value is complete, and then to new subqueries; a read is never outstanding while a subquery is being written to |
| `Mset.MsetCommand.OnBackendReplyReceived` | proxy/redis_mset_command.cc:192-225 | a reply, however split, is complete when all of it is there; it then answers the client if it is the last one pending and is dropped otherwise |
| `Mset.MsetCommand.NeverStuck` | proxy/redis_mset_command.cc:192-280 | a command whose query is not complete has a client read outstanding or was refused one, or awaits the completion of a subquery's write or read; one whose query is complete may also await its turn or the write of the reply |
| `Mset.BlameFor` | proxy/redis_mset_command.cc:228-240 | a subquery fails only after its own connect was refused, and only a broken connection aborts the command |
| `Mset.QueryIsMset` | proxy/redis_mset_command.cc:37-53 | prefix and segments of a subquery are one well-formed mset whose count matches its pairs |
| `Mset.MsetPrefixes` | proxy/redis_mset_command.cc:37-53 | the prefixes for one to four pairs, spelled out |
| `Mset.MsetDecodes` | proxy/redis_mset_command.cc:37-53 | parsed by the parser of this project, the query of a subquery is an array of the name "mset", which has the kind of MSET, and the keys and values one after another |
| `Mset.MsetCommand.Step` | proxy/redis_mset_command.cc:84-341 | every event does what `Next` says |
| `Mset.Serve` | proxy/redis_mset_command.cc:84-341 | in every state of every run: the pairs taken are exactly those whose value headers have arrived, each is on one subquery of its endpoint, each subquery not failed is sent a prefix of the mset of exactly its pairs, something that will happen is awaited; when done all pairs are out once, all msets are sent, one subquery is pending and the client got exactly its reply; every failed subquery has a refused connect in the schedule |
| `Del.CachedPrefixes` | proxy/redis_del_command.cc:31-63 | the prefixes kept ready are the ones that would be computed |
| `Del.QueryIsDel` | proxy/redis_del_command.cc:31-63 | prefix and segments of a subquery are one well-formed command over exactly its keys |
| `Del.DelDecodes` | proxy/redis_del_command.cc:31-63 | parsed by the parser of this project, the query of a subquery is an array of its name and its keys |
| `Del.CountOfPrefix` | proxy/redis_del_command.cc:311-339 | a count line cut anywhere is read once, when it is complete; a count beyond int is refused |
| `DelKeys.KeysInExact` | proxy/redis_del_command.cc:273-286 | a key can be taken if and only if all of it has arrived |
| `DelKeys.NextKeys` | proxy/redis_del_command.cc:273-286 | parsing what has arrived, less an incomplete last bulk, finds exactly those keys |
| `DelKeys.FirstKeys` | proxy/redis_del_command.cc:92-111 | so does the constructor, and they are the bulks that `CreateCommand` takes |
| `Del.DelCommand.constructor` | proxy/redis_del_command.cc:92-111 | subqueries are started for exactly the keys that command creation takes from the bytes received, under the command's name in lower case |
| `Del.DelCommand.OnWriteQueryFinished` | proxy/redis_del_command.cc:209-247 | next segment or read the reply; a refused connect adds nothing and may start a client read; other errors abort |
| `Del.DelCommand.OnBackendRecoverableError` | proxy/redis_del_command.cc:138-159 | a failed connect answers with the sum if it is the last one pending and leaves otherwise |
| `Del.DelCommand.OnBackendReplyReceived` | proxy/redis_del_command.cc:161-206 | any split of the count line adds the count once, the last one pending answers with the sum, and any other may start a client read; a count that is no int aborts |
| `Del.DelCommand.HandleRead` | proxy/redis_del_command.cc:273-309 | after every read all keys that the parser finds complete are taken by new subqueries, and if there are none a read is started unless a subquery is being written to |
| `Del.DelCommand.NeverStuck` | proxy/redis_del_command.cc:161-247 | a command whose keys are not all taken has a client read outstanding or was refused one, or awaits the completion of a subquery's write or read; one with all keys may also await its turn or the write of the reply |
| `Del.BlameFor` | proxy/redis_del_command.cc:209-225 | a subquery fails only after its own connect was refused, and only a broken connection or a count that is no int aborts the command |
| `Del.DelCommand.Step` | proxy/redis_del_command.cc:92-339 | every event does what `Next` says |
| `Del.Serve` | proxy/redis_del_command.cc:92-339 | in every state of every run: the keys taken are exactly those that have arrived, each is on one subquery of its endpoint, subqueries are sent as for MSET, the sum is that of the counts that are there, something that will happen is awaited; when done the client got one integer, the sum of the counts of the subqueries that did not fail, over all batches; every failed subquery has a refused connect in the schedule |
| `Pipeline.ClientConnection.TryWriteReply` | proxy/command.cc:573-589 | the front command starts a write when it has bytes and none is outstanding, so the assertion in `WriteReply` never fails |
| `Pipeline.ClientConnection.StartWriteReply` | proxy/command.cc:567-571 | a command that reaches the front is writing whatever is ready |
| `Pipeline.ClientConnection.RotateReplyingCommand` | proxy/client_conn.cc:111-132 | the front command leaves, the next one starts to write, and received commands take the free place |
| `Pipeline.ClientConnection.ProcessUnparsedQuery` | proxy/client_conn.cc:159-189 | fewer than 16 commands are active only if no other has arrived |
| `Pipeline.ClientConnection.OnBackendReplyReceived` | proxy/command.cc:425-430 | ready bytes are written by the front command and wait otherwise |
| `Pipeline.ClientConnection.OnWriteReplyFinished` | proxy/command.cc:434-460 | exactly the bytes of the outstanding write reach the client, and the command is done when they were its last; a failed write aborts, except for stats |
| `Pipeline.ClientConnection.StatsWritten` | proxy/stats_command.cc:59-70 | a stats command is done whether or not its write failed |
| `Pipeline.KeptWhole` | proxy/stats_command.cc:64-70 | if no reply was lost, all replies are there |
| `Pipeline.KeptLess` | proxy/stats_command.cc:64-70 | if one was lost, bytes are missing |
| `Pipeline.LostBecause` | proxy/stats_command.cc:64-70 | a reply is lost if and only if it is that of a stats command whose write completes with an error |
| `Pipeline.Losing` | proxy/stats_command.cc:64-70 | for every pipeline with a stats command there is a run that loses its reply and leaves the output out of order |
| `Pipeline.ClientConnection.Step` | proxy/client_conn.cc:111-189 | every event does what `Next` says |
| `Pipeline.Serve` | proxy/client_conn.cc:111-189 | in every state of every run the output is the complete replies of the commands that are done, in the order of their creation, and a part of the next; in order if and only if no write of a stats command completed with an error, so always without stats; at most 16 are active, and whenever the front command has something to write a write is outstanding |
| `Pool.BackendConn.HandleWrite` | proxy/backend_conn.cc:128-158 | a finished write leaves none outstanding, an error that is recovered makes the connection unfit for reuse, and after an abort nothing else happens |
| `Pool.BackendConn.HandleRead` | proxy/backend_conn.cc:160-185 | a finished read leaves no read outstanding, so a complete reply means a quiet connection |
| `Pool.BackendConn.TryReadMoreReply` | proxy/backend_conn.cc:92-98 | no read is started once the reply is complete |
| `Pool.BackendConn.Abort` | proxy/backend_conn.cc:46-60 | an aborted connection is never reused |
| `Pool.BackendConn.Reset` | proxy/backend_conn.cc:68-77 | a connection that may be reused is as new after a reset, and the assertion in it never fails |
| `Pool.DoneInUse` | proxy/backend_conn.cc:79-185 | no operation or completion, in whatever order, leaves a reusable connection with a complete reply and something outstanding |
| `Pool.BackendConnPool.Allocate` | proxy/backend_pool.cc:9-27 | the oldest idle connection of the endpoint is lent, or a new one; it is as new, and its insertion among the active ones always succeeds |
| `Pool.BackendConnPool.Release` | proxy/backend_pool.cc:29-72 | a recyclable connection is reset and queued if there is room, any other is closed; releasing it again does nothing; the other connections stay as they were |
| `Pool.LentSound` | proxy/backend_pool.cc:9-27 | lending keeps the invariant of the pool, and what is lent was not out and is as new |
| `Pool.TakenBackSound` | proxy/backend_pool.cc:29-72 | so does taking back |
| `Pool.LentBecause` | proxy/backend_pool.cc:9-72 | over every run a connection is lent out if and only if it was lent and not taken back since |
| `Pool.InOrderOfReturn` | proxy/backend_pool.cc:9-72 | over every run an idle queue is in the order in which its connections were put there, so the one at its head has waited longest |
| `Pool.Serve` | proxy/backend_pool.cc:9-72 | every event of a run, with repeated releases and any use in between, does to queues, connections and the set of those lent out what `Next` says; in every state no connection is idle and lent out, idle ones are as new with nothing outstanding, at their own endpoint, once, at most max(1, max_idle) of them, and one that is neither is closed; those lent out are exactly those lent and not taken back since; each one lent was not out, is as new, and has waited longest of those that wait for its endpoint; one taken back waits, last in its queue, if its reply is complete and passed on, nothing speaks against reuse and there is room, and is closed otherwise |
| `Ring.BuildCachePoints` | proxy/key_distributer.cc:22-44 | the points are those of all nodes, one per unit of weight, sorted by hash |
| `Ring.LabelInjective` | proxy/key_distributer.cc:32-33 | the texts hashed for different points or different nodes differ |
| `Ring.KnownLabel` | proxy/key_distributer.cc:32-33 | one such text, spelled out |
| `Ring.KnownPoints` | proxy/key_distributer.cc:29-38 | the points of a node of weight two, spelled out: they are numbered from 0 |
| `Ring.LocateCacheNode` | proxy/key_distributer.cc:46-62 | the binary search agrees with a linear scan for the first point not below the hash, wrapping to the first |
| `Ring.LocatedNearest` | proxy/key_distributer.cc:46-62 | that point is the next one clockwise on the circle of hashes |
| `Ring.HashRange` | proxy/key_distributer.h:36 | the hashes are the 32-bit numbers |
| `Ring.Determined` | proxy/key_distributer.cc:40 | where a key goes is independent of how the sort orders equal points if and only if no two nodes tie for it |
| `Ring.RemapExactly` | proxy/key_distributer.cc:22-62 | when points of one node go, a key of another node stays, however the rest is sorted, if and only if no two remaining nodes tie for it |
| `Ring.ChangeWeight` | proxy/key_distributer.cc:29-38 | lowering a weight relocates only keys of that node, and raising it moves keys only to it |
| `Ring.RemoveNode` | proxy/key_distributer.cc:29-38 | removing a node relocates only its keys, and adding one moves keys only to it |
| `Ring.DistinctIsClear` | proxy/key_distributer.h:36 | with different hashes on the points of different nodes there are no ties |
| `Ring.CollisionMoves` | proxy/key_distributer.h:36 | with equal hashes a key can move between two nodes that stay |
| `DoobsHash.MixInPlace` | proxy/doobs_hash.cc:37-48 | the nine lines of the macro, with their shifts, one after another on three words, are the mix |
| `DoobsHash.MixReversible` | proxy/doobs_hash.cc:37-48 | the mix has an inverse on both sides, so it is a bijection on three 32-bit words |
| `DoobsHash.PackInjective` | proxy/doobs_hash.cc:62-64 | four signed bytes are determined by the word they are packed into |
| `DoobsHash.AbsorbStart` | proxy/doobs_hash.cc:60-67 | the absorption loop is injective in its starting state |
| `DoobsHash.AbsorbBlock` | proxy/doobs_hash.cc:60-67 | it is injective in any single block, the others being fixed |
| `DoobsHash.AddRest` | proxy/doobs_hash.cc:70-86 | the fall-through switch adds the last bytes, padded with zeros, as one block with the length in the reserved byte |
| `DoobsHash.Hash` | proxy/doobs_hash.cc:50-90 | the loop and the switch compute the last word of the state after absorbing the key block by block |
| `DoobsHash.HashOfFoo` | proxy/doobs_hash.cc:50-90 | the hash of "foo" is 0x7fc1f406 |
| `DoobsHash.HashOfLetters` | proxy/doobs_hash.cc:50-90 | the hash of the 23 letters a to w, with initial value 7, is 0xbfe3a7e9 |
| `DoobsHash.HashOfAccented` | proxy/doobs_hash.cc:50-90 | the hash of five bytes, four of them negative as `char`, is 0x7693dee5 |
| `DoobsHash.FinalStart` | proxy/doobs_hash.cc:50-90 | the state at the end is injective in the initial value |
| `DoobsHash.FinalBlock` | proxy/doobs_hash.cc:50-90 | and in any single block of the key, the last incomplete one included |

## Left out

- memcached commands: their parsers and replies; the reply rotation of memcached get is not kept when its end arrives during a write.
- Malformed lengths: a length with bytes that are not digits is an error here, where the source computes with them.
- Unsupported commands and error replies to the client for unparsable data: they would only add easy members.
- 32-bit overflow of sizes and 64-bit overflow of the DEL sum; a single count beyond int is refused, as in the source.
- Sockets, timers, threads, logging, configuration, statistics counters, the allocator and the worker pool.
- Mget.Serve: whether the buffer of a backend has room for another read is given with each completion, not computed from what the buffer holds.
- Key location: the endpoint of a key is a given total function; namespaces and their default are not modelled.
- Order of effects between pipelined commands on different connections: the source does not promise it.
- Mget.Serve: a query without keys is not covered, because the source asserts a non-empty reply queue; neither is an endpoint equal to a default-constructed one for the first key.
- Mset.MsetCommand.OnBackendReplyReceived: that a reply of a subquery fits the backend's buffer is taken for granted.
- Pipeline.Serve: what a command replies is given; the other modules state what it is.
- Pool.Serve: that commands use connections in the order write, read, complete is built into the operations offered to them; one out of order does nothing.
- ClientConn.Serve: an abort that a command causes (a broken backend connection, a failed write of the reply) is no event there; what a command aborts for is stated in its own module.
- Ring.BuildCachePoints: the sort is an insertion sort in place of the library's, and nodes come as a list with different endpoints.
- Del.CountOfPrefix: counts are not negative.
