# Wire formats and queues of the HTTP server, in Dafny

The server speaks HTTP/1.1 and HTTP/2. These modules model the parts of it where octets are laid out,
queued, compressed and counted, and prove what they do for every input and every run.

* **Header compression (RFC 7541).** `HpackFifo` and `HpackStatic` are the tables of the standard: a
  first-in first-out queue of headers and 61 fixed entries. `ByteRing` and `HpackTable` are the server's
  dynamic table: a 4096-octet ring with all names and values, and a ring of entry records addressed by three
  ever-growing counters. The class invariant says that the ring shows the newest 4096 octets of a log of
  everything ever written, that the live headers are one contiguous stretch at the end of that log, and that
  the window of records is distinct. `HpackRuns` takes whole runs. `HpackIntegers`, `HpackBlock` and
  `HpackWriter` are the writer of header blocks in chunks, read back by section 6 of the standard.
* **Huffman coding.** `HuffmanCodes` and `HuffmanAutomaton` hold the server's real tables, and `HuffmanTree`
  the tree of the prefix code. `HuffmanTables` proves every cell consistent with the tree, and
  `HuffmanCanonical` that the code is the canonical one of the standard. `HuffmanReading` decodes bit by bit;
  `HuffmanDecoder` and `HuffmanEncoder` are the nibble-wise decoder and the word-wise encoder (`Words` has its
  shifts, `HuffmanStores` its stores), and `HuffmanRoundTrip` joins them.
* **HTTP/2 output.** `WriteQueue` is the linked queue of buffers that the socket takes in part, with a ledger of
  what was pushed, sent and handed back. `DataFrames` frames bodies onto it and accounts for declared lengths.
  `Http2Output` is a connection with many streams: a mark for every buffer ever queued says whose frame it ends
  and where, and the class invariant ties the marks to the queue, to the streams that wait and to what their
  writers were told. `Http2Wire` reads whole connections frame by frame, whole or cut anywhere; `Http2Model` is
  the same connection as plain values with one step for each event, and what holds on all its runs;
  `Http2Runs` takes any list of events through the linked connection and shows that it does what the values say,
  and `Http2Progress` what the events bring about: no body waits in vain, and whoever writes is told in the end.
* **HTTP/1.1 output.** `ResponseWire` writes segment lists in batches, `ResponseSink` is the response call by
  call, `ResponseLog` is what the calls come to, and `ChunkedReading` is a recipient.
* **HTTP/1.1 input.** `Pipeline` reads and drains bodies on a kept connection.
* **Codecs.** `Calendar`, `CalendarTime`, `HttpDate`, `HttpDateFormats`, `Printf` and `HttpDateRoundTrip` for
  dates, `Base64`, and `PercentCoding` for URLs.

`Bytes`, `Numbers` and `Parts` are shared. `Examples` has what the standards work out octet by octet.
`dafny verify dfyconfig.toml` checks everything.

Where the source changes objects, buffers or lists in place, so do the classes and methods here; each is
tied by its contract to a function of values, and the lemmas are about those functions. A connection is
modelled by how many octets it still takes (`room`), or by the sizes its reads return (`grants`), so that a
statement for all of these covers every partial write and every short read. Clocks, logging and flow statistics
are left away; the C library's conversion of a time to calendar fields is specified as the one date of that second.

Several things turned out not to hold as their surroundings suggest; each has its exact condition.

* A dynamic table size update before the first insertion is forgotten, because the lazy set-up overwrites it
  (`HpackRuns.RepliesStandardExactlyWhen`); only a peer that refers to entries it may not would notice
  (`HpackRuns.ConformingPeerSeesNoDifference`).
* A header field goes through 16 bits of length into a response head, and a long one is cut; 65536 octets of it
  vanish (`ResponseLog.KeptIsWhole`, `ResponseSink.Respond`).
* The Huffman encoder loses the high half of every word it stores when words have eight octets
  (`HuffmanRoundTrip.EncodeThenDecode`, `HuffmanRoundTrip.LosesWords`).
* A file frame of 65536 octets or more has its length cut to 16 bits (`DataFrames.FileFrameIsWhole`).
* An empty write to a chunked response ends it, and a trailer before the first write overtakes the head
  (`ResponseLog.WholeReads`).
* Day 0 of a month is accepted in a date (`HttpDateRoundTrip.DayZero`).
* A date in January or February of year 0 is 10368 seconds off (`HttpDateRoundTrip.TimeIsStamp`).
* The parser of header blocks refuses integers of more than four octets that the writer emits
  (`HpackIntegers.ParserTakes`).

## Model

| member | source | states |
|---|---|---|
| `HpackFifo.EvictIsShortestRun` | src/KHttp2Table.cpp:159-208 | evicting a FIFO of headers to a limit removes exactly the shortest oldest run that suffices (sections 4.3 and 4.4 of RFC 7541) |
| `HpackFifo.InsertFits` | src/KHttp2Table.cpp:209-299 | inserting keeps the cost of the table within its capacity, also when the entry alone is too large and empties it |
| `HpackFifo.InsertKeeps` | src/KHttp2Table.cpp:209-299 | after an insertion the new entry is the newest, if it fits at all, and each old one is there, a place further on, exactly when it, all newer ones and the new one fit together |
| `HpackFifo.ResizeKeeps` | src/KHttp2Table.cpp:159-180 | after a resize an entry is there exactly when it and all newer ones fit |
| `HpackStatic.TableInOrder` | src/KHttp2Table.cpp:7-68 | the static table lists names in order, and values in order under each name, but for "accept", which stands behind "accept-ranges" as in the standard |
| `HpackStatic.IndexesMoveUp` | src/KHttp2Table.cpp:82-102 | an inserted entry has index 62, and the others move up by one as long as they fit (section 2.3.3 of RFC 7541) |
| `ByteRing.PutAppends` | src/KHttp2Table.cpp:247-274 | writing a string at the write pointer of the 4096-octet ring, wrapped or not, leaves the ring showing the newest 4096 octets of everything ever written |
| `ByteRing.ReadBack` | src/KHttp2Table.cpp:104-151 | a string among those newest octets is read back from its address, wrapped or not, octet for octet |
| `HpackTable.Table.constructor` | include/KHttp2.h:250-262 | the zeroed table is valid and empty |
| `HpackTable.Table.GetIndexedHeader` | src/KHttp2Table.cpp:82-157 | on every valid table a static index gives the whole of its pair, whatever the field held and also when only its name is asked for; a dynamic one the header that many places from the newest of the plain FIFO, or of that the name alone, the value staying as it was; and an index past the end nothing |
| `HpackTable.Table.TableSize` | src/KHttp2Table.cpp:159-180 | the new table is the FIFO resized, the announced size is refused exactly above 4096 |
| `HpackTable.Table.TableAccount` | src/KHttp2Table.cpp:181-208 | sets aside 32 octets and the strings, after evicting the FIFO down to what is left, or empties the table when they can never fit |
| `HpackTable.Table.TakeRecord` | src/KHttp2Table.cpp:238-245 | the record handed out is in no slot of the window, so it is no live entry, and the window of records stays distinct |
| `HpackTable.Table.PutString` | src/KHttp2Table.cpp:247-274 | copying in one or two pieces appends the string to the log that the ring shows, also with the underestimated room after a wrapped name |
| `HpackTable.Table.Store` | src/KHttp2Table.cpp:247-274 | every live header is still described after a new one is stored, which becomes the newest |
| `HpackTable.Table.Grow` | src/KHttp2Table.cpp:276-296 | growing happens only at 64 slots, and renumbering the counters keeps every live record and its order |
| `HpackTable.Table.GrowsOnce` | src/KHttp2Table.cpp:276-296 | a full ring has 64 slots, no spare record and 64 live records beside the new one, because each costs at least 32 of 4096 |
| `HpackTable.Table.Bounded` | src/KHttp2Table.cpp:217-245 | on every reachable table at most 128 records were ever made, and the ring has 0, 64 or 128 slots; the counters stay in order |
| `HpackTable.Table.LiveReads` | src/KHttp2Table.cpp:247-274 | every live name and value is in storage, octet for octet: no write ever overlapped one |
| `HpackTable.Table.AddHeader` | src/KHttp2Table.cpp:209-299 | the new table is the FIFO insertion of the header, starting from an empty table of 4096 at first use |
| `HpackRuns.Run` | src/KHttp2Table.cpp:82-299 | every run of insertions, size updates and lookups through the real table gives the replies of the plain FIFO |
| `HpackRuns.FetchAnswers` | src/KHttp2Table.cpp:82-157 | what a lookup replies at the end of any run: the whole static pair, the whole dynamic entry, a dynamic name with the value decoded before, or a refusal that leaves the field alone |
| `HpackRuns.StandardExactlyWhen` | src/KHttp2Table.cpp:217-232 | the table is the one RFC 7541 prescribes from the first insertion on, exactly when the size updates before it leave the capacity at 4096 |
| `HpackRuns.StandardReplies` | src/KHttp2Table.cpp:217-232 | without insertions, or under that condition, every reply is the prescribed one |
| `HpackRuns.ForgottenUpdate` | src/KHttp2Table.cpp:217-220 | a concrete run whose replies differ: size update to 0, insertion, lookup |
| `HpackRuns.NameOutlivesItsEntry` | src/KHttp2Table.cpp:104-151 | a name fetched by index is a copy, a value of its own: inserting under it when that evicts the entry it came from enters the pair asked for. That the copy is taken from storage octet for octet is `HpackTable.Table.GetIndexedHeader` |
| `HpackRuns.RepliesStandardExactlyWhen` | src/KHttp2Table.cpp:209-232 | seen from outside: for every insertion and everything after it all replies are the prescribed ones, exactly when the size updates before the first insertion leave the capacity at 4096; if not, some continuation shows it |
| `HpackRuns.StandardLookupsAgree` | src/KHttp2Table.cpp:209-232 | on every run, forgotten update or not, the prescribed queue is a newest-end part of the server's, so every index that is good by the standard means the same header to the server |
| `HpackRuns.ConformingPeerSeesNoDifference` | src/KHttp2Table.cpp:209-232 | a peer that looks up only what the standard lets it gets the prescribed replies on every run: the forgotten update does not show to it |
| `HpackRuns.AlwaysFits` | src/KHttp2Table.cpp:159-299 | on every run the cost of the entries is within the capacity, and the capacity at most 4096 |
| `HuffmanTables.CellsFit` | src/KHuffDecode.cpp:12-2626 | every one of the 4096 real cells is four steps in the prefix-code tree, or the error mark exactly where those steps run through the end-of-string code |
| `HuffmanTables.PlainPaths` | src/KHuffEncode.cpp:8-75 | every real code is the path of its leaf in the tree |
| `HuffmanTables.LoweredIsPlain` | src/KHuffEncode.cpp:78-144 | the lower-casing table is the plain table after ASCII lower-casing |
| `HuffmanCanonical.LengthClasses` | src/KHuffEncode.cpp:8-75 | the octets with codes of each length are just those that appendix B of RFC 7541 gives this length |
| `HuffmanCanonical.Canonical` | src/KHuffEncode.cpp:8-75 | of two octets with codes of one length the smaller has the smaller code, and a shorter code, lengthened by any bits, lies below every longer one; so no code is the start of another |
| `HuffmanCanonical.CodeByPlace` | src/KHuffEncode.cpp:8-75 | the i-th octet of a length has the i-th code of that length, the first of which follows from the numbers of shorter codes: lengths alone determine all codes |
| `HuffmanCanonical.BitsByPlace` | src/KHuffDecode.cpp:12-2626 | the bits that encoder and decoder use for an octet are those of that number |
| `HuffmanCanonical.EndOfString` | src/KHuffEncode.cpp:8-75 | the one code that is left over, thirty ones, is that of the end of string |
| `HuffmanReading.ReadComplete` | src/KHuffDecode.cpp:2630-2689 | bit by bit, the codes of any text and then the bits of a state are read as that text and that state |
| `HuffmanReading.ReadSound` | src/KHuffDecode.cpp:2630-2689 | whatever is read without error was the codes of the output followed by the bits of the state |
| `HuffmanReading.BadExactlyOnEos` | src/KHuffDecode.cpp:2634-2638 | reading fails exactly when the bits hold codes followed by the whole end-of-string code |
| `HuffmanDecoder.NibbleIsFourBits` | src/KHuffDecode.cpp:2630-2648 | one cell equals four bits of bit-by-bit decoding; it returns to its own state exactly on an error |
| `HuffmanDecoder.OutputBound` | src/KHuffDecode.cpp:2650-2689 | five times the output is at most the bits read, those pending from before included |
| `HuffmanDecoder.Decode` | src/KHuffDecode.cpp:2650-2689 | from any state the octets decode as bit by bit and the output stays in its room; a final call with octets in it succeeds exactly when the bits since the root are the codes of a text and then fewer than thirty ones, and that text is what it wrote |
| `HuffmanDecoder.WellEnded` | src/KHuffDecode.cpp:2677-2686 | the state is an ending one exactly when the bits since the root are the codes of a text followed by nothing but ones, fewer than the end-of-string code has |
| `HuffmanDecoder.DecodePieces` | src/KHuffDecode.cpp:2650-2689 | a string cut into any number of pieces, decoded call by call with the final flag on the last, is accepted exactly when the whole of it spells a text, and gives that text |
| `HuffmanEncoder.CodeJoins` | src/KHuffEncode.cpp:196-203 | shifting a code into a word that still has room keeps the pending bits and adds the code |
| `HuffmanEncoder.CodeOverflows` | src/KHuffEncode.cpp:206-217 | a code that does not fit fills the word to be written, and the rest of it starts the next one, for words of 32 and of 64 bits |
| `HuffmanEncoder.Encode` | src/KHuffEncode.cpp:179-240 | in each build, returns the number of octets the codes need exactly when that is shorter than the text, else 0, and never writes past the text; the octets are what the stores make of the whole words, then the rest of the codes, padded with ones |
| `HuffmanEncoder.Flush` | src/KHuffEncode.cpp:224-239 | writes the octets of the last word, padded with ones |
| `HuffmanStores.PutWord` | src/KHuffEncode.cpp:147-176 | a word goes through 32 bits: stored as four octets it is whole; as eight, its high half becomes zeros; as four of eight, its low half comes first and four octets stay as they were |
| `HuffmanStores.StoredAt` | src/KHuffEncode.cpp:147-217 | bit by bit, what is in memory: with words of eight octets the low half of each whole word stays in its place behind zeros, or moves to the front of what was there |
| `HuffmanStores.RightExactlyWhen` | src/KHuffEncode.cpp:206-217 | what is in memory is the codes exactly when words have four octets, or no word stored had anything to lose |
| `HuffmanStores.RightWhateverWasThere` | src/KHuffEncode.cpp:206-217 | where four octets of each stored word keep what was there, the result is right whatever that was exactly when fewer than 64 bits are needed |
| `HuffmanRoundTrip.LosesWords` | src/KHuffEncode.cpp:206-217 | sixteen times the letter a is shortened to ten octets, wrong ones in both builds with words of eight octets |
| `HuffmanRoundTrip.EncodeThenDecode` | src/KHuffEncode.cpp:179-240 | whatever the encoder shortens, a final decoder call gives back, lower-cased if that was asked for: always with words of four octets, or when fewer than 64 bits are needed, and otherwise exactly when the stored words had nothing to lose; what can be said before the call is `HuffmanStores.RightWhateverWasThere` |
| `HuffmanRoundTrip.EncodingIsInjective` | src/KHuffEncode.cpp:8-75 | no two texts have the same encoding |
| `WriteQueue.Buffer.Clean` | src/KHttp2WriteBuffer.cpp:16-28 | the waiting writer is told the frame length, or -1 at teardown, once |
| `WriteQueue.Queue.Add` | include/KHttp2WriteBuffer.h:366-377 | appends one buffer and its octets, and nothing else |
| `WriteQueue.Queue.Push` | include/KHttp2WriteBuffer.h:290-296 | appends a list in order; what is pending grows by exactly its octets |
| `WriteQueue.Queue.GetReadBuffer` | include/KHttp2WriteBuffer.h:221-242 | what is offered to the socket is a prefix of the octets pending, no more pieces than there is room for, a file alone, no file behind the first piece, and as many pieces as that allows |
| `WriteQueue.Queue.Consume` | include/KHttp2WriteBuffer.h:249-262 | takes octets off the head and reports it drained exactly when nothing of it is left |
| `WriteQueue.Queue.ReadSuccess` | include/KHttp2WriteBuffer.h:243-289 | drops exactly the first octets sent; hands back exactly the buffers drained, latest first; uncorks when the queue runs empty after a buffer that asked for it |
| `WriteQueue.PartBalances` | include/KHttp2WriteBuffer.h:243-289 | sent and pending together are always what was accepted, handed-back and queued buffers always those pushed, at any place in the chain |
| `WriteQueue.Queue.Clean` | src/KHttp2WriteBuffer.cpp:29-36 | teardown hands back everything not yet handed back, in order, and leaves an empty queue |
| `WriteQueue.RemoveBuff` | include/KHttp2WriteBuffer.h:307-316 | every frame completed in the list is reported once to its own writer, and no other writer hears anything, given that each has a waiting writer of its own; `Http2Output.Connection` shows that this is always so |
| `DataFrames.EndsAsDeclared` | include/KHttp2.h:402-433 | a reader of the frames of a stream of declared length sees END_STREAM exactly when the length is positive and reached, and then on one frame; a length that is negative or zero ends it on none |
| `DataFrames.HeaderReads` | include/KHttp2.h:158-175 | the packed header reads back by section 4.1 of RFC 7540 as its length, type, flags and stream |
| `DataFrames.PointAt` | include/KHttp2.h:351-385 | for every list of segments, empty ones included, the buffers hold exactly the first min(len, buf_len) octets and the last one is not empty |
| `DataFrames.BuildWriteBuffer` | include/KHttp2.h:338-415 | builds one frame of a body in memory or of a file: nine octets of header and that payload; only its last buffer reports to the stream; the declared length is charged; END_STREAM and out_closed on exactly the frame that brings it to zero |
| `Http2Output.Connection.StartResponse` | include/KHttp2.h:424-433 | the declared length is set and one HEADERS frame queued, with END_STREAM, and the stream closed for writing, exactly when that length is 0; nobody waits for it (the code is at src/KHttp2.cpp:1066-1098 and src/KHttp2WriteBuffer.cpp:37-75) |
| `Http2Output.Connection.CreateWriteWaitWindow` | include/KHttp2.h:416-423 | starting to wait for the window with a body keeps the whole invariant of the connection |
| `Http2Output.Connection.OnWriteWindowReady` | include/KHttp2.h:566 | for a stream that waits for the window: the queue gains exactly one frame of what the two windows and the frame size allow of its body, in buffers that are new, marked as this stream's, which now waits for it; both windows shrink by its payload and never below zero; or nothing happens (the code is at src/KHttp2.cpp:1401-1421) |
| `Http2Output.Connection.PushFrame` | include/KHttp2WriteBuffer.h:290-296 | a frame that no writer waits for goes through the same queue in a new buffer, and nobody is told of it |
| `Http2Output.Connection.WriteEnd` | include/KHttp2.h:529 | a body without a declared length ends by one empty DATA frame with END_STREAM, once (the code is at src/KHttp2.cpp:799-825) |
| `Http2Output.Connection.WaitsForFrame` | include/KHttp2WriteBuffer.h:243-316 | a writer waits for its frame exactly as long as some frame of its stream is accepted and not all sent |
| `Http2Output.Connection.Sent` | include/KHttp2WriteBuffer.h:243-316 | octets sent move from the front of what is pending to what is sent, the queue keeps only buffers it had, and the whole invariant is kept: the writers whose frames this completes are told, and those that still wait for a frame have it queued (the code is at src/KHttp2.cpp:744-746) |
| `Http2Output.Connection.Close` | src/KHttp2WriteBuffer.cpp:16-36 | at teardown every writer that waits, for the window or for its frame, is told -1 once, after the lengths of just the frames that were sent (the code is at src/KHttp2.cpp:219-266) |
| `Http2Output.Connection.OnWriteResult` | include/KHttp2.h:533 | after a result of at least one octet every writer was told exactly the lengths of its frames whose last octet is sent by then; any other result closes the output, and the writers that wait are told -1 behind these (the code is at src/KHttp2.cpp:739-748) |
| `Http2Output.Connection.NoticesAreSent` | include/KHttp2WriteBuffer.h:243-316 | wherever the invariant holds, which every call keeps, a stream's writers were told exactly the lengths of those of its frames whose last octet is sent, in order; each frame stands whole in the octets accepted, of which those sent are a prefix. The runs are `Http2Runs.Run` |
| `Http2Runs.Run` | include/KHttp2WriteBuffer.h:221-316 | every run of opened streams, heads, writes, window updates of streams and of the connection, changed initial windows, ends, other frames and write results, through one connection with its linked queue: what each stream's writers are told, the octets sent, and whether the connection goes on, are what the plain values of `Http2Model` say (the code is at src/KHttp2.cpp:219-266, 739-748, 799-825, 1066-1098, 1401-1460, 2003-2049 and 2157-2197) |
| `Http2Progress.FramedOrWaits` | include/KHttp2.h:566 | a write, or a wider window of a stream that waits, puts the first octets of the body into one frame, as many as the frame size and both windows allow and at 16 bits of a file's length, charges them to both windows, and sets END_STREAM when they reach the declared length; where nothing is allowed the body waits; no other stream changes (the code is at src/KHttp2.cpp:1401-1460 and 2172-2177) |
| `Http2Progress.NoneWaitsInVain` | include/KHttp2.h:566 | on every run a body that waits does so only while its stream's window or the connection's is used up, although the streams are looked through only when the connection's window was used up before it grew (the code is at src/KHttp2.cpp:2003-2049 and 2172-2197) |
| `Http2Progress.EveryWriteIsHeard` | include/KHttp2WriteBuffer.h:243-316 | from every state that a run can reach, whoever may write and writes has a first part of the body framed and hears its length next, behind those of all pieces before, once the windows open and everything is sent, whatever other streams wait and in whatever order they are looked through |
| `Http2Progress.NoWriterIsStuck` | include/KHttp2WriteBuffer.h:243-316 | the same of every body that already waits |
| `Http2Progress.StartSays` | include/KHttp2.h:424-433 | starting a response adds the HEADERS frame with END_HEADERS, and END_STREAM exactly for a body of length 0 (the code is at src/KHttp2.cpp:1066-1098) |
| `Http2Progress.EndSays` | include/KHttp2.h:529 | ending a body without a declared length adds an empty DATA frame with END_STREAM, and the stream is over (the code is at src/KHttp2.cpp:799-825) |
| `Http2Progress.OtherSteps` | include/KHttp2.h:338-433 | what the other events do to streams, windows, frames and octets sent |
| `Http2Progress.AdjustGrants` | include/KHttp2.h:148 | a changed initial window is granted to every stream that it does not take past 2^31 - 1 (the code is at src/KHttp2.cpp:2027-2049) |
| `Http2Model.AlwaysKept` | include/KHttp2.h:338-433 | on every run the frames of each stream are just those of what its writers said: one head, the pieces in order, an end; its window is what was granted less its octets, and the connection's is what was granted less the octets of all |
| `Http2Model.StreamReads` | include/KHttp2.h:338-433 | on every run whoever reads the octets accepted finds on each stream its head, then its pieces whole and in order as if no other stream were there, and END_STREAM on its last frame when it is over and nowhere else |
| `Http2Model.HeardInOrder` | include/KHttp2WriteBuffer.h:243-316 | on every run the lengths that a stream's writers were told are those of its first pieces, and of all pieces once everything is sent |
| `Http2Model.WindowsAccount` | include/KHttp2.h:338-415 | on every run every octet of a body read from the wire was charged once to its stream's window and once to the connection's (the code is at src/KHttp2.cpp:1413-1414) |
| `Http2Model.FramedWithin` | include/KHttp2.h:566 | whatever the windows are, a piece is framed only where both windows cover it (the code is at src/KHttp2.cpp:1401-1421) |
| `Http2Model.NeverOverdrawn` | include/KHttp2.h:566 | on every run in which windows only grow, none is ever below zero (the code is at src/KHttp2.cpp:1401-1421) |
| `Http2Wire.PrefixReads` | include/KHttp2.h:158-175 | a reader of the first octets of a connection, cut anywhere, has read exactly the frames that are whole by then |
| `Http2Wire.SaidMore` | include/KHttp2.h:338-415 | a piece more, while the stream is not over, is one frame more, with END_STREAM exactly when it makes it over |
| `Http2Wire.EndsOnce` | include/KHttp2.h:402-433 | of all that is said on a stream END_STREAM stands on the last frame, exactly when it is over |
| `DataFrames.WireExtends` | include/KHttp2.h:338-415 | a run of frames is extended by just the octets that the next call queues; `Http2Wire.SaidMore` carries this to connections |
| `DataFrames.LengthIsConserved` | include/KHttp2.h:402-410 | while writers stay within the declared length, content_left plus octets framed is constant; in every run of a connection content_left is this (`Http2Runs.Run`) |
| `DataFrames.RunReads` | include/KHttp2.h:338-415 | a reader of frames sees every payload once and in order, and END_STREAM on exactly the frame whose payload reaches the declared length; `Http2Model.StreamReads` says so of the frames of a stream among all others |
| `DataFrames.FileFrameIsWhole` | include/KHttp2.h:343-350 | a file frame carries all that was allowed exactly when the allowance or the request is below 65536; at 65536 it would be empty |
| `HpackIntegers.SplitBits` | include/KHttp2WriteBuffer.h:136-143 | or-ing a value below the mask into bits above it adds, and masking takes it out again |
| `HpackIntegers.EncodedReads` | include/KHttp2WriteBuffer.h:132-154 | every integer reads back by section 5.1 of RFC 7541, whatever follows it |
| `HpackIntegers.EncodedLength` | include/KHttp2WriteBuffer.h:132-154 | a 64-bit value takes at most eleven octets |
| `HpackIntegers.ParseInt` | include/KHttp2.h:34-36 | the parser gives the value that section 5.1 assigns to at most four octets, charges them to the block, and tells more input, too long and overrun apart (the code is at src/KHttp2.cpp:634-685) |
| `HpackIntegers.ParserTakes` | include/KHttp2.h:34-36 | the parser takes what the writer emits exactly when the value is below the mask plus 2^21: for seven bits, up to the declared largest field (the code is at src/KHttp2.cpp:634-685) |
| `HpackIntegers.ReceivedInParts` | include/KHttp2.h:34-36 | for every integer and whatever follows it, cut after any octet received: the parser gives the integer when it is there within four octets and within the block, an error when the block ends first, and otherwise asks for more octets, or declines when it has four (the code is at src/KHttp2.cpp:634-685) |
| `HpackIntegers.AnyOctets` | include/KHttp2.h:34-36 | the same of any octets: when more are asked for, when they are too many, and that a value is only ever the one that section 5.1 reads (the code is at src/KHttp2.cpp:634-685) |
| `HpackBlock.FieldReads` | include/KHttp2.h:79-83 | every field the writer emits is read by section 6 of RFC 7541 as the header it means, with the table effect it means |
| `HpackBlock.StatusMeans` | include/KHttp2.h:89-96 | every status is sent as :status with three digits, by static entry or not; they spell it exactly below 1000 (the code is at src/KHttp2.cpp:1130-1172) |
| `HpackBlock.BlockReads` | include/KHttp2WriteBuffer.h:118-181 | a receiver with any table gets all fields of a block in order |
| `HpackBlock.ResponseReads` | include/KHttp2.h:79-98 | a response block gives the status first, then the headers with names in lower case, HTTP/2 upgrades left out |
| `HpackWriter.Digits` | include/KHttp2WriteBuffer.h:132-154 | the loop fills the buffer with the encoding of section 5.1 |
| `HpackWriter.HeaderFrame.AllocBuffer` | include/KHttp2WriteBuffer.h:183-204 | claims octets behind everything written, in a new chunk exactly when the last is full |
| `HpackWriter.HeaderFrame.Write` | include/KHttp2WriteBuffer.h:159-168 | the chunks then hold what they held and the octets behind it, however these straddle chunks of 4096 |
| `HpackWriter.HeaderFrame.WriteLowerString` | include/KHttp2WriteBuffer.h:118-131 | likewise, in lower case |
| `HpackWriter.HeaderFrame.WriteInt` | include/KHttp2WriteBuffer.h:132-154 | appends the encoding of the integer |
| `HpackWriter.HeaderFrame.Insert` | include/KHttp2WriteBuffer.h:169-181 | puts octets in front of everything written |
| `HpackWriter.HeaderFrame.AddStatus` | include/KHttp2.h:89-96 | the status field goes in front of everything written (the code is at src/KHttp2.cpp:1130-1172) |
| `HpackWriter.HeaderFrame.AddHeader` | include/KHttp2.h:79-98 | the field goes behind everything written; cookies go under their static name, HTTP/2 upgrades nowhere (the code is at src/KHttp2.cpp:1173-1231) |
| `HpackWriter.WriteHead` | include/KHttp2WriteBuffer.h:118-204 | status and headers written in either order: any receiver reads the status first and the headers in order |
| `ChunkedReading.HexReads` | src/KHttpSink.cpp:146 | a size printed in hexadecimal reads back |
| `ChunkedReading.ChunksRead` | src/KHttpSink.cpp:142-177 | chunks of nonempty data read back by section 7.1 of RFC 9112 as the data put together, whatever follows |
| `ChunkedReading.EmptyChunkEnds` | src/KHttpSink.cpp:142-177 | a chunk of an empty write is the end of the body to whoever reads it |
| `ResponseWire.Gather` | include/KTcpServerSink.h:12-20 | a batch of at most 63 segments continues exactly where the last one ended |
| `ResponseWire.WriteBuf` | include/KTcpServerSink.h:6-32 | for any number of segments the whole text and then the suffix is sent, or as much of it as the connection takes; the rest is returned; without text no suffix |
| `ResponseWire.ResponseContext.HeadInsertConst` | include/KResponseContext.h:20-25 | a segment goes in front, as much of it as its length modulo 65536 |
| `ResponseWire.ResponseContext.HeadAppend` | include/KResponseContext.h:26-32 | a segment goes behind, as much of it as its length modulo 65536 |
| `ResponseWire.ResponseContext.Insert` | include/KResponseContext.h:53-60 | a segment goes in front and the length counts it |
| `ResponseWire.ResponseContext.Append` | include/KResponseContext.h:61-72 | a segment goes behind and the length counts it |
| `ResponseWire.ResponseContext.Attach` | include/KResponseContext.h:40-44 | the head leads on to the body, and the length covers both |
| `ResponseSink.Sink.ResponseStatus` | src/KHttpSink.cpp:47-52 | the status line, through 16 bits of length, is first whenever it is given, and only once |
| `ResponseSink.Sink.ResponseHeader` | include/KHttpSink.h:32-46 | behind the lines before it comes the whole field line exactly when name, value and four octets are fewer than 65536, and otherwise what 16 bits of length leave of it |
| `ResponseSink.Sink.ResponseKnownHeader` | include/KHttpSink.h:20-31 | likewise for a known name, which is a segment of its own: exactly when the value is shorter than 65536 |
| `ResponseSink.Sink.StartResponseBody` | src/KHttpSink.cpp:72-98 | the blank line ends the head, which stays unsent |
| `ResponseSink.Sink.InternalWrite` | include/KHttpSink.h:158-169 | a waiting head goes out in front of the first write, in one gathered write |
| `ResponseSink.Sink.WriteAll` | src/KHttpSink.cpp:142-163 | a write adds the waiting head and the data, framed as a chunk if chunked: all of it exactly when the connection takes as much, and else as much as it takes; the rest of a declared length shrinks |
| `ResponseSink.Sink.WriteAllList` | src/KHttpSink.cpp:164-177 | likewise for segments |
| `ResponseSink.Sink.ResponseTrailer` | src/KHttpSink.cpp:239-265 | a trailer adds its line, the first one behind the size line of the last chunk, or as much of that as the connection takes |
| `ResponseSink.Sink.EndRequest` | src/KHttpSink.cpp:178-210 | the end adds what is missing, the last chunk exactly once, and succeeds exactly when the connection takes that and no declared length fell short; the connection is closed exactly when not |
| `ResponseLog.KeptIsWhole` | include/KHttpSink.h:20-46 | what a field adds to the head is the whole field exactly when its segments fit 16 bits of length, and shorter otherwise |
| `ResponseLog.FieldParts` | include/KHttpSink.h:32-46 | a field line splits at its first colon into the name and, behind one space, the value |
| `ResponseLog.VanishingField` | include/KHttpSink.h:32-46 | a name of 32 octets with a value of 65500, which a request may carry, adds nothing at all |
| `ResponseLog.SentIsMeant` | include/KResponseContext.h:20-32 | the head sent is the one meant exactly when every segment of it fits |
| `ResponseLog.CutMisreads` | include/KResponseContext.h:20-32 | a recipient of a head that was cut anywhere never reads the fields that were meant |
| `ResponseLog.WireOfWhole` | src/KHttpSink.cpp:142-210 | writes, trailers and the end come to head, chunks and one last chunk; a trailer before any write comes before the head |
| `ResponseLog.WireOfPlain` | src/KHttpSink.cpp:142-210 | without chunks the writes come to the head and the octets written, and the end to nothing more, or to the head if nothing was written |
| `ResponseLog.WholeReads` | src/KHttpSink.cpp:142-265 | a recipient gets head, bodies, trailers and the octets after the response, exactly when every segment of the head fits 16 bits, no write was empty and no trailer came before the first write |
| `ResponseSink.Respond` | src/KHttpSink.cpp:142-265 | the calls of a whole chunked response put it on the connection, or as much as that takes, and all succeed exactly when it takes all; then a recipient reads it as its status line, fields, bodies and trailers, exactly when every segment of its head fits 16 bits of length |
| `Calendar.YearsByFormula` | src/KHttpLib.cpp:319-337 | the closed formula for years equals adding up year lengths from 1970, for any year |
| `Calendar.GaussCounts` | src/KHttpLib.cpp:308-337 | the formula with years starting in March counts the days of the calendar |
| `HttpDate.ParseHttpTime` | src/KHttpLib.cpp:87-340 | for any string at all every read is inside it, and the result is -1 or the count for the fields found |
| `HttpDate.Timestamp` | src/KHttpLib.cpp:294-340 | rejects fields out of range, leap days included, except that day 0 is accepted; counts the others in 64-bit arithmetic |
| `HttpDateRoundTrip.DayZero` | src/KHttpLib.cpp:294-340 | day 0 of a month counts as the day before its first, exactly but for January and February of year 0 |
| `HttpDateRoundTrip.TimeIsStamp` | src/KHttpLib.cpp:308-340 | the wrapped 64-bit result is the seconds since 1970 exactly unless the date is in January or February of year 0 |
| `HttpDateRoundTrip.FormatsGiveStamp` | src/KHttpLib.cpp:87-340 | in the formats of section 5.6.7 of RFC 9110 the result is the seconds since 1970: with four-digit years exactly under that condition, with two-digit years exactly from 1970 to 2069 |
| `CalendarTime.EverySecondIsOneDate` | src/KHttpLib.cpp:341-345 | every second from year 0 on is the count of exactly one date of the calendar |
| `HttpDateFormats.ImfReads` | src/KHttpLib.cpp:109-279 | every IMF-fixdate gives its fields |
| `HttpDateFormats.Rfc850Reads` | src/KHttpLib.cpp:109-279 | every RFC 850 date gives its fields, with a two-digit year read back exactly for 1970 to 2069 |
| `HttpDateFormats.AsctimeReads` | src/KHttpLib.cpp:109-292 | every asctime date gives its fields |
| `HttpDateFormats.FixedExactly` | src/KHttpLib.cpp:109-279 | the first format is read, behind the name, exactly where each of its parts stands |
| `HttpDateFormats.Rfc850Exactly` | src/KHttpLib.cpp:109-279 | likewise the second, whose years are 1970 to 2069 |
| `HttpDateFormats.AsctimeExactly` | src/KHttpLib.cpp:109-292 | likewise the third |
| `HttpDateFormats.MonthLetters` | src/KHttpLib.cpp:109-279 | a month is read from its first letters, and any other first letter is refused |
| `HttpDateFormats.MonthNames` | src/KHttpLib.cpp:43 | the names of the months |
| `HttpDateRoundTrip.DayNames` | src/KHttpLib.cpp:42 | the names of the days |
| `HttpDateRoundTrip.NextDay` | src/KHttpLib.cpp:341-354 | the names of the days follow each other, and a week later it is the same day |
| `HttpDateRoundTrip.ExampleDate` | src/KHttpLib.cpp:341-354 | the date of section 5.6.7 of RFC 9110 is printed as it stands there |
| `Printf.SprintfNum` | src/KHttpLib.cpp:889-970 | writes the padded decimal number, or as much of it as fits, and nothing else |
| `Printf.NumberText` | src/KHttpLib.cpp:889-970 | a number has its digits behind enough blanks or zeros to fill its width, and a minus sign in front of these |
| `Printf.DecimalReads` | src/KHttpLib.cpp:889-970 | the digits of a number stand for it, without a zero in front |
| `Printf.Vslprintf` | src/KHttpLib.cpp:1028-1280 | writes a prefix of the formatted text that fills the buffer or is all of it, and nothing behind it |
| `HttpDateRoundTrip.PrintsImf` | src/KHttpLib.cpp:341-354 | the format prints every date as IMF-fixdate but for the number of digits of its year, so for years of four digits as IMF-fixdate |
| `HttpDateRoundTrip.MakeHttpTime` | src/KHttpLib.cpp:341-354 | for a time, the buffer holds that text of its one date and its day of the week, cut at its size |
| `HttpDateRoundTrip.PrintThenParse` | src/KHttpLib.cpp:87-354 | parsing what was printed for a time, cut at any size, gives the time back exactly when its year has four digits and the first 25 octets were kept, and otherwise refuses it |
| `Base64.Encode` | src/KHttpLib.cpp:834-866 | the loop gives the encoding of section 4 of RFC 4648 |
| `Base64.GroupBits` | src/KHttpLib.cpp:848-863 | its shifts and masks are the four sextets of 24 bits |
| `Base64.StrChr` | src/KHttpLib.cpp:744-773 | the unrolled search finds the first occurrence or the end |
| `Base64.Decode` | src/KHttpLib.cpp:775-833 | decodes group by group up to padding, refuses letters outside the alphabet, and drops trailing zeros; every octet looked at is in the text or its terminator |
| `Base64.RefusedExactlyWhen` | src/KHttpLib.cpp:775-833 | a text is refused exactly for a letter outside the alphabet in a group of four that no padding ends the text before |
| `Base64.AlphabetIs` | src/KHttpLib.cpp:39-40 | the alphabet is that of section 4 of RFC 4648 |
| `Base64.EncodeMemory` | src/KHttpLib.cpp:834-842 | a length of zero stands for the text before the terminator |
| `Base64.DecodeMemory` | src/KHttpLib.cpp:775-784 | likewise |
| `Base64.EncodedDecodes` | src/KHttpLib.cpp:775-866 | decoding an encoding gives the text and, where one was padded, a zero octet |
| `Base64.TrimmedIsPrefix` | src/KHttpLib.cpp:823-826 | dropping trailing zeros drops only zeros, and nothing exactly when the last octet is not zero |
| `Base64.RoundTrip` | src/KHttpLib.cpp:775-866 | decode after encode is the text without its trailing zeros, so the text exactly when it does not end in one |
| `PercentCoding.UrlEncode` | src/KHttpLib.cpp:545-580 | the buffer holds the encoding, at most three times as long, and a terminator |
| `PercentCoding.EncodedIsPlain` | src/KHttpLib.cpp:545-580 | an encoded text has only plain octets and percent signs |
| `PercentCoding.HtoiIsOctet` | src/KHttpLib.cpp:689-703 | two hexadecimal digits of either case give their octet |
| `PercentCoding.DecodeInPlace` | src/KHttpLib.cpp:704-739 | decodes where it stands, writing never overtaking reading; octets after the text are untouched |
| `PercentCoding.UrlDecode` | src/KHttpLib.cpp:704-739 | likewise, with a length of zero standing for the text before the terminator |
| `PercentCoding.ShorterExactlyWhenEscaped` | src/KHttpLib.cpp:704-739 | a text gets shorter exactly when it has an escape, and then a terminator is put behind it |
| `PercentCoding.NothingToDecode` | src/KHttpLib.cpp:704-739 | text without escapes, and without a plus that means a space, stays as it is, percent signs without two digits too |
| `PercentCoding.PlusIsSpace` | src/KHttpLib.cpp:704-739 | a plus means a space where it stands itself, and one that an escape stands for stays |
| `PercentCoding.PlainIs` | src/KHttpLib.cpp:545-580 | letters, digits, slash, dash, dot and underscore are left as they are, and nothing else is |
| `PercentCoding.EncodedDecodes` | src/KHttpLib.cpp:545-739 | decoding an encoded text gives the text, whether a plus means a space or not |
| `PercentCoding.RoundTrip` | src/KHttpLib.cpp:545-739 | the same of the two routines on one buffer |
| `Pipeline.Sink.GetReadBuffer` | include/KHttpSink.h:90-110 | growing the buffer keeps its octets and the parser place |
| `Pipeline.Sink.ReadMore` | src/KHttpSink.cpp:270-281 | reading more succeeds exactly when octets arrive, and changes nothing in the stream that the parser sees |
| `Pipeline.Sink.InternalRead` | src/KHttpSink.cpp:99-112 | removes from the front of buffer-then-network exactly what it delivers: from the buffer as much as is wanted and there, and only from an empty one from the network, as much as arrives |
| `Pipeline.Sink.Read` | src/KSink.cpp:119-143 | likewise, never past the end of a body of known length, and counts it; gets octets exactly when some are buffered or arrive; at the end of a body of unknown length there is none left |
| `Pipeline.Sink.SkipPost` | src/KHttpSink.cpp:211-238 | succeeds exactly when the rest of the body is buffered or arrives before a read fails, removes all of it then, and nothing else ever |
| `Pipeline.Sink.StartPipeLine` | include/KHttpSink.h:130-148 | goes on exactly on a kept connection, not upgraded, whose body is gone, never asked for, or can be drained |
| `Pipeline.Sink.SavePoint` | include/KHttpSink.h:190-193 | moving the tail to the front keeps the stream |
| `Pipeline.Sink.NextRequest` | src/KHttpSink.cpp:316-340 | the next request starts at the front of the buffer, exactly when octets are buffered or arrive, and no octet is lost |
| `Pipeline.Serve` | src/KSink.cpp:119-143 | any reads and then a drain remove exactly Content-Length octets, deliver a prefix of them in order, and leave the parser at the octet right after; that succeeds on every kept connection on which more than the body arrives, with enough reads that get an octet |
| `Examples.RequestBlock` | src/KHttp2Table.cpp:82-299 | the request of appendix C.3.1 of RFC 7541: its octets, its headers, and the table of 57 octets after it |
| `Examples.Integers` | include/KHttp2WriteBuffer.h:132-154 | the three integers of appendix C.1 of RFC 7541 |
| `Examples.HuffmanLetters` | src/KHuffEncode.cpp:8-75 | the letters of appendix C.4.2 of RFC 7541 |
| `Examples.EntrySize` | src/KHttp2Table.cpp:209-232 | the size of the entry of appendix C.2.1 of RFC 7541 |
| `Examples.StatusOctets` | include/KHttp2.h:89-96 | the first field of appendix C.5.1 of RFC 7541, and a status that is one entry (the code is at src/KHttp2.cpp:1130-1172) |
| `Examples.Upgrading` | include/KHttp2.h:79-98 | an upgrade to HTTP/2 is not passed on, and one to another protocol is (the code is at src/KHttp2.cpp:1200-1231) |
| `Examples.LastFrame` | include/KHttp2.h:338-415 | the octets of a frame that reaches the declared length, and of one that does not |
| `Examples.ChunkText` | src/KHttpSink.cpp:142-163 | a chunk, and a size with a letter in it |
| `Examples.Base64Vectors` | src/KHttpLib.cpp:834-866 | two vectors of section 10 of RFC 4648 |
| `Examples.Base64Groups` | src/KHttpLib.cpp:834-866 | the two whole groups of the last of these vectors |
| `Examples.PercentText` | src/KHttpLib.cpp:545-580 | a blank and a tilde as they are encoded |
| `Examples.TextOfPercent` | src/KHttpLib.cpp:704-739 | an escape, a broken one, and a plus as they are decoded |
| `Examples.FrameLayout` | include/KHttp2.h:158-175 | the nine octets of a frame header, the most significant ones first |

## Left out

- HuffmanStores.PutWord: leaves out the store octet by octet at src/KHuffEncode.cpp:154-163, which shifts a 32-bit value by more than its width. Which build is in force is decided outside this repository.
- HuffmanDecoder.WellEnded: accepts any tail of ones shorter than the end-of-string code, as the code does; section 5.2 of RFC 7541 allows at most seven.
- HpackBlock.ReadField: is a reader for blocks without Huffman-coded strings, which the writer never emits.
- HpackTable.Table.AddHeader: does not model a failed allocation, nor counters passing 2^64; a returned `true` also covers an entry too large for the table.
- HpackWriter.HeaderFrame.AddHeader: takes a name of exactly the given length, where the source compares up to a terminator.
- HpackWriter.HeaderFrame.WriteInt: is for kinds whose prefix bits are zero, as at every call.
- WriteQueue.Queue.Push: asks that the last buffer pushed owes something; `DataFrames.PointAt` shows that framing keeps to that.
- WriteQueue.Buffer: a file buffer carries its own file content and offset; two buffers sharing one file object, and its offset, are not modelled. The payload memory of a buffer is a value.
- DataFrames.BuildWriteBuffer: asks for a nonempty frame, which the source asserts; for a file that means a length that is no multiple of 65536.
- Http2Output.Connection.OnWriteWindowReady: asks for a body of which the windows let something be framed, which the source asserts in building the frame; leaves out the list of active streams and its timeouts, waiting for the peer to hang up, and resets of single streams.
- Http2Output.Connection.StartResponse: queues its header block as one buffer in one HEADERS frame; blocks longer than a frame and trailers are not modelled.
- Http2Model.Step: a call whose assertions in the source would fail does nothing, nor does a body of which nothing can be framed; a window update beyond 2^31 - 1, which ends the stream or the connection, is not modelled, and the order of the index of streams is any order. A write result takes any part of the octets pending, also beyond those offered.
- Http2Model.NeverOverdrawn: is for runs in which no settings frame makes windows smaller; what holds in all runs is `Http2Model.FramedWithin`.
- Http2Output.Connection.Close: is for a failed write; when reading fails, the source leaves the queue to the writing side.
- ResponseSink.Sink.StartResponseBody: leaves out the connection and alternative-service headers that the server adds (they are further header calls), interim responses, and HEAD, where a chunked response has no body.
- ResponseWire.Connection: stands for the socket primitives, which are not part of this model: a gathered write sends everything or a prefix.
- Printf.Vslprintf: only the conversions `%s` and `%d`, with zero padding and width; the format ends inside no conversion.
- Printf.SprintfNum: decimal digits only; the hexadecimal branches serve conversions that no date needs.
- HttpDateRoundTrip.MakeHttpTime: is for times from year 0 on, as far as an `int` holds the year.
- HttpDateRoundTrip.PrintThenParse: likewise.
- Base64.Decode: asks that no single letter is left over for a last group that is reached and not refused, where the source would look one octet past the terminator. Shifts and masks of octets are written as division, remainder and sums.
- Base64.DecodeMemory: asks the same.
- Pipeline.Sink.Read: asks that an upgraded connection has no rest of known length, which the source asserts; interim 100 responses are only counted.
- Pipeline.Sink.NextRequest: the request parser and chunked request bodies are not part of this model.
- HEADERS frames split into CONTINUATION frames: src/KHttp2WriteBuffer.cpp:61 clears the first header again instead of the new one.
- Chunked sending of files, where src/KHttpSink.cpp:135 counts three octets for CRLF.
- The frame state machine of HTTP/2, except for its integers, and settings, priorities and resets.
- The header list with removal and the growing array, which would add only easy members.
- Upstream connections, WebDAV, HTTP/3, TLS, the PROXY protocol, timeouts and logging.
