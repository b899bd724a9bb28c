# Drone plot replication server: a verified model

A replication server keeps a list of drone plots. Every few seconds it sends the plots that are new to the other servers
over authenticated TCP connections, takes in what they send, removes the reports that several nodes made of one sighting,
and corrects its clock skew from the pairs it removed. This project models that program in Dafny and proves what its
parts keep and how they fit together. It covers five areas.

* **The duplicate pass** (`Floats`, `Dedup`, `Sightings`, `Skew`, `Scan`, `Passes`, `Correction`, `ReplServer`). The nested loops over the shrinking list are
  methods of the class `ReplServer` that erase from the live list. They are proved against functions on positions of the
  sorted list, and the guarantees of the pass are lemmas about those functions: order, coverage, exactly when it is
  complete, exactly when the plot that ends the loop survives, what the skew table holds, and exactly when it holds real
  skews and shifts the plots as documented.
* **The connection protocol** (`Connection`, `ConnSafety`, `Transfer`, `Handshake`, `Survival`, `Rendezvous`). `TCPConn` is
  a class whose methods refine functions on a connection value. Safety is proved for every run against an arbitrary peer. For an
  actual client with an actual server, whose writes may interleave, be joined and be cut in any way, it is proved which
  runs are defined, in which ones both sides stay connected, that no run ever transmits data, and where a run can stop;
  some run gets there, with both sides verified.
* **Framing, records and encryption** (`Bytes`, `Frames`, `FileDesc`, `Plots`, `PlotDB`, `Marshal`, `Cipher`).
* **The connection list and the work queue** (`Queueing`, `Walk`, `WorkQueue`, `QueueMgr`).
* **Every run of a node** (`AntennaSim`, `NodeRuns`, `Program`): where each plot that ever arrived has gone, and what its
  timestamp has become. Any number of iterations of the replication loop, with injections and arrivals in between, is
  proved to be such a run, and what its connections acknowledged is what arrived from peers.

A call ends in `Ok`, in `Throws` (an exception that leaves the call) or in `Undefined` (the C++ text has no defined
behaviour). Runs are described up to the first call that does not end in `Ok`.

Where the code differs from its comments, from its documentation or from what one would wish, the model follows the code:

* The plot that ends the outer loop can itself be erased; the loop guard then compares with an iterator to nothing
  (`Dedup.LastKept` says exactly when, `Dedup.LastCanBeErased` gives an input).
* When the second and third plot both match the first, the pass leaves one of them stored (`Dedup.PassComplete`,
  `Dedup.DuplicatesCanRemain`).
* A pair of nodes (3, 2), and no other, writes a slot that the comment reserves for another pair, that of nodes 1 and 2
  (`Skew.SlotAsDocumented`; `Skew.ThreeTwoMisfiled` is an input).
* The fill-in leaves the sentinel -16 in the table, or adds it to other slots, unless the pass matched a pair that fills
  slot 2 and one that fills slot 0 or 1 (`Skew.GenuineExactly`); `Skew.SentinelLeaks` lists every way it fails, and
  `Skew.OneMatchLeaks` is an input with one matched pair on which it does.
* The shift uses the slot number of the plot's node, although the slots stand for pairs of nodes. It is the documented
  correction only if the table is right for the node of every unmarked survivor (`Correction.PassAsIntended`), and for all
  three nodes only if the table is all zeros (`Correction.RightForAllNodes`). The elected node's plots, which should stay,
  stay if and only if slot 0 is zero (`Correction.ElectedStays`); `Correction.ElectedMoves` is an input on which they move.
* The UNSKEW flag is tested but set nowhere, so every pass shifts every plot whose slot is not zero, again and again
  (`Correction.StaysExactly`, `NodeRuns.TimestampAccounting`); in `Program.ShiftedTwice` a plot is moved by two passes.
* An honest client and server do not always verify each other, even if no link fails. A frame that is cut when it is read
  closes the connection, and so does a response that is read together with the challenge behind it; a response of which
  fewer than 16 bytes have arrived is decrypted past its end. `Survival.RunSurvivesExactly` and
  `Survival.RunDefinedExactly` say exactly which runs complete, and `Rendezvous.JoinedWritesFail`,
  `Rendezvous.CutFrameFails` and `Rendezvous.CutResponseUndefined` are runs that do not.
* The reply with the server's identity is commented out while the client waits for it, so data never flows between two
  honest servers (`Handshake.DataNeverFlows`); with that reply it would (`Transfer.OnlyTheReplyIsMissing`).
* A retried connection dials the byte-swapped port on every odd attempt (`ConnSafety.RetryPort`).
* The count in front of a payload is trusted (`ReplServer.ReplServer.AddReplDronePlots`, `Marshal.CountWithoutRecords`), so
  a payload that is cut by an end tag inside it is read past its end or refused (`Marshal.DeliveryFails`).
* `deserialize` reads a record that is too short past its end (`Plots.Deserialize`); both of its callers pass exactly 24
  bytes, so the program itself never gets there.
* A file opened for writing keeps the tail of longer old contents (`PlotDB.FileRoundTrip`).
* `addPlot` passes its timestamp through a 32-bit `int` (`Marshal.DeliveredUnchanged`).

## Model

| member | source | states |
|---|---|---|
| Dedup.PassOrder | src/ReplServer.cpp:132-197 | the survivors are an order-preserving subsequence of the sorted list and begin with its first plot |
| Dedup.PassCovers | src/ReplServer.cpp:140-197 | every erased plot matches, and lies behind, a plot that survives the whole pass |
| Dedup.PassComplete | src/ReplServer.cpp:135-197 | no two survivors match if and only if not both the second and the third plot match the first |
| Dedup.LateSurvivorsDiffer | src/ReplServer.cpp:135-197 | without any condition, past the second survivor no survivor matches an earlier one |
| Dedup.DuplicatesCanRemain | src/ReplServer.cpp:187-194 | a list in time order on which the outer loop ends normally and two matching plots stay stored |
| Dedup.KeptExactly | src/ReplServer.cpp:132-197 | a plot is kept if and only if no kept plot in front of it matches it, or it is the third and slides into the place of the erased second |
| Dedup.KeptIsUnique | src/ReplServer.cpp:132-197 | that law determines the result of the pass: nothing else satisfies it |
| Sightings.SameCoordinateExactly | src/ReplServer.cpp:145 | two coordinates compare equal if and only if neither is a NaN and the values of the two binary32 patterns are equal |
| Sightings.MatchesExactly | src/ReplServer.cpp:145-147 | two plots match if and only if they report one drone at one place, from two nodes, within six seconds |
| Sightings.ErasedIsReported | src/ReplServer.cpp:140-197 | every erased plot reports the same sighting as a plot in front of it that survives |
| Sightings.KeptBySighting | src/ReplServer.cpp:132-197 | the law of the whole pass, in terms of what the plots report |
| Sightings.WholeExactly | src/ReplServer.cpp:132-197 | the pass leaves a list whole if and only if no two plots in it report one sighting |
| Sightings.TwoPlacesStay | src/ReplServer.cpp:145-147 | a list in time order with one drone seen at two places, which the pass leaves whole |
| Dedup.PassIdle | src/ReplServer.cpp:140-197 | the pass erases nothing if and only if no two plots match |
| Dedup.PassAccount | src/ReplServer.cpp:145-187 | each position is kept or erased exactly once; each erasure is a match, found from a plot that survives |
| Dedup.TraceExactly | src/ReplServer.cpp:140-197 | each erased plot is found from the first kept plot that matches it, and the pairs are found in the order of these plots and then of the erased ones |
| Dedup.SecondSurvivor | src/ReplServer.cpp:141-194 | which plot ends up second: the one that slides into the place of an erased second plot is not compared again with the first |
| Dedup.LastKept | src/ReplServer.cpp:136-140 | the plot whose iterator ends the outer loop survives if and only if no survivor of the plots before it matches it, or the list has three plots and the second is erased |
| Dedup.LonelyLastSurvives | src/ReplServer.cpp:136-140 | in particular a last plot that matches no other is never erased |
| Dedup.LastCanBeErased | src/ReplServer.cpp:136-187 | a list in time order on which the pass erases the plot that its end iterator points to |
| Scan.ScanErases | src/ReplServer.cpp:187-194 | after an erase and the restart of `j` the inner loop has still made progress: the third plot is the next to look at and nothing before it was missed |
| Scan.CleanPart | src/ReplServer.cpp:141-196 | whatever the restarted inner loop passes again matches plot `i` no more |
| ReplServer.RecordSkew | src/ReplServer.cpp:149-177 | the nested tests write the one slot that belongs to the pair, and only over the sentinel |
| ReplServer.ReplServer.EraseMatches | src/ReplServer.cpp:141-196 | the inner loop over the shrinking list terminates, leaves exactly the plots and the skew table of one turn, and reports whether the plot that ends the outer loop is among them |
| ReplServer.ReplServer.EraseDuplicates | src/ReplServer.cpp:134-198 | the outer loop runs to its end if and only if that plot survives; then the list is the survivors and the table is what all matched pairs measured |
| ReplServer.ReplServer.Deconflict | src/ReplServer.cpp:122-215 | the whole deconfliction: nothing for at most one plot, only a sort when the size has not changed, else erase, fill in and shift, or the exact way it fails |
| Passes.PassSettles | src/ReplServer.cpp:126-187 | a deconfliction saves the size of the list it leaves, so that the next one only sorts; a list of at most one plot is not touched |
| NodeRuns.SecondDeconflictIdle | src/ReplServer.cpp:126-133 | in every run a deconfliction directly after another erases nothing, measures nothing and moves no time |
| ReplServer.ReplServer.ShiftTimes | src/ReplServer.cpp:207-212 | every plot moves by the skew of its node; throws if and only if some unmarked plot has a node outside 1 to 3 |
| Skew.SlotIsFirstPair | src/ReplServer.cpp:149-177 | throughout the loops a slot is the sentinel or the once-written difference of the first matched pair that belongs to it, within six seconds |
| Skew.SlotAsDocumented | src/ReplServer.cpp:123-177 | a pair fills the documented slot if and only if it is not a (3, 2) pair; differences are lower node minus higher node |
| Skew.PairFills | src/ReplServer.cpp:149-177 | for all node numbers, known or not, which slot a first pair fills and with which difference |
| Skew.ThreeTwoMisfiled | src/ReplServer.cpp:173-176 | a list in time order on which the pass matches a (3, 2) pair and files it in slot 0 |
| Skew.TableLaws | src/ReplServer.cpp:199-206 | after the fill-in slot 1 is the sum of the others if and only if slots 0 and 1 were not both measured or agree; measured slots are never changed |
| Skew.MeasuredByPair | src/ReplServer.cpp:149-177 | a slot is measured if and only if the pass matches a pair that belongs to it |
| Skew.GenuineExactly | src/ReplServer.cpp:199-206 | after the fill-in all slots hold real skews, within twelve seconds, if and only if a matched pair fills slot 2 and another slot 0 or slot 1 |
| Skew.SentinelLeaks | src/ReplServer.cpp:199-206 | in each other case, where the sentinel ends up: every slot of the table, case by case |
| Skew.EmptyTableExactly | src/ReplServer.cpp:122-206 | the table is [0, -16, -16] if and only if at most slot 0 is measured, and that as zero; in particular without any matching pair |
| Skew.OneMatchLeaks | src/ReplServer.cpp:199-206 | a list in time order with one matched pair of nodes 1 and 2 whose table is [-3, -19, -16] |
| Correction.IntendedAligns | src/ReplServer.cpp:116-123 | the correction that the comments describe moves a measured pair to the elected node's time |
| Correction.ShiftedAsIntended | src/ReplServer.cpp:207-212 | a plot is shifted as described if and only if it is marked or the table is right for its node, in either direction |
| Correction.RightForAllNodes | src/ReplServer.cpp:207-212 | the shift is the described one for the plots of all three nodes if and only if the table is all zeros |
| Correction.PassAsIntended | src/ReplServer.cpp:125-213 | a whole pass corrects its survivors as described if and only if the table is right for each unmarked one |
| Correction.StaysExactly | src/ReplServer.cpp:207-212 | a pass leaves a survivor's time alone if and only if it is marked or its slot is zero |
| Correction.ElectedStays | src/ReplServer.cpp:207-212 | the elected node's plots keep their time if and only if slot 0 is zero |
| Correction.FirstSlotZero | src/ReplServer.cpp:199-206 | slot 0 is zero if and only if its first pair agrees, or without one, slots 1 and 2 hold the same |
| Correction.TableIsZero | src/ReplServer.cpp:199-206 | the table is all zeros if and only if slot 2, and one or both of the others, were measured as zero |
| Correction.ElectedMoves | src/ReplServer.cpp:207-212 | a list in time order on which the elected node's plot moves by 3 seconds and a plot of node 2 by 19 |
| Correction.PassWithoutMatches | src/ReplServer.cpp:125-213 | without a matching pair a pass that runs keeps every plot and moves those of nodes 2 and 3 by 16 seconds |
| PlotDB.SortIsStable | src/DronePlotDB.cpp:485-491 | the sort is a permutation in time order that keeps plots of equal time in their order |
| PlotDB.SortedExactly | src/DronePlotDB.cpp:485-491 | the result is in time order, and a list is left as it is if and only if it was in time order |
| ReplServer.ReplServer.MarshalNewPlots | src/ReplServer.cpp:237-254 | exactly the new plots are serialized, counted and unmarked, in list order; throws if and only if one of them has drone 0 |
| ReplServer.ReplServer.QueueNewPlots | src/ReplServer.cpp:230-277 | one payload with exactly the new plots is queued once per server, nothing if there are none, and only NEW flags change |
| ReplServer.ReplServer.AddReplDronePlots | src/ReplServer.cpp:288-313 | appends exactly the plots of a payload; throws for a wrong length, reads past the end for a count that is too large |
| ReplServer.ReplServer.AddSingleDronePlot | src/ReplServer.cpp:321-328 | appends the one plot that the record describes, narrowed and unflagged |
| ReplServer.ReplServer.DrainQueue | src/ReplServer.cpp:107-111 | empties the queue: all received plots are appended in queue order and one connection is launched per element to send; succeeds if and only if every server is known and every payload is well formed |
| ReplServer.ReplServer.Iterate | src/ReplServer.cpp:87-215 | one iteration, in the program's order, has exactly the effect of the composed value functions on plots, queue, connections and saved size |
| Marshal.UnmarshalPayload | src/ReplServer.cpp:237-313 | what was marshalled is unmarshalled, in order, for fewer than 2^32 plots |
| Marshal.DeliveryExact | src/ReplServer.cpp:230-328 | end to end, marshalling, framing, unframing and applying succeeds if and only if the payload has no end tag inside |
| Marshal.DeliveredPlots | src/ReplServer.cpp:230-328 | and what is delivered is exactly the sender's new plots, in order, unflagged |
| Marshal.DeliveryFails | src/ReplServer.cpp:288-313 | a payload with an end tag inside is read past its end if that lies on the border of a record, and else refused |
| Marshal.CountWithoutRecords | src/ReplServer.cpp:298-310 | a payload of a bare count of one is read past its end |
| Marshal.CountDecides | src/ReplServer.cpp:298-310 | any count in front of whole records adds that many plots from the front, or is read past the end |
| Marshal.DeliveredUnchanged | src/DronePlotDB.cpp:38-47 | the copies equal the originals up to flags if and only if every timestamp fits 32 bits |
| Marshal.ClearedIsEmpty | src/ReplServer.cpp:245-251 | after a marshalling no plot is new and nothing but the NEW flag has changed |
| Marshal.AdmittedIsNotNew | src/ReplServer.cpp:321-328 | no plot that arrives from a peer is new |
| Frames.FramingExact | src/TCPConn.cpp:516-564 | a framed payload comes back if and only if it does not contain its own end tag, for each of the three tags |
| Frames.UnwrapWrap | src/TCPConn.cpp:535-564 | what comes out of any frame is the payload up to its first end tag |
| Frames.ExtractionWellFormed | src/TCPConn.cpp:535-546 | on a buffer with both tags the extracted range is well formed if and only if the first start tag precedes the first end tag |
| Frames.CutFrameRefused | src/TCPConn.cpp:535-546 | a frame cut anywhere before its last byte is refused, never misread |
| Frames.FindsExactly | src/TCPConn.cpp:516-523 | the search succeeds if and only if the tag occurs |
| Frames.TagTexts | src/TCPConn.cpp:516-564 | the tags and the acknowledgement, letter by letter |
| Frames.TagsApart | src/TCPConn.cpp:535-546 | a frame is never taken for one of another kind, unless its payload holds that kind's start tag |
| Plots.Serialize | src/DronePlotDB.cpp:72-91 | the nested byte loops append the 24-byte little-endian record; throws if and only if the drone is 0 |
| Plots.Deserialize | src/DronePlotDB.cpp:105-124 | reads the record back; throws only for a start beyond the buffer and is undefined for every other record that is too short |
| Plots.ParseRecord | src/DronePlotDB.cpp:72-124 | a record parses to its plot without flags, if and only if the timestamp is a 64-bit value |
| Plots.RecordParse | src/DronePlotDB.cpp:72-124 | every 24 bytes are the record of the plot they parse to |
| Plots.RecordLayout | src/DronePlotDB.cpp:72-91 | every byte of a record: drone, node, 64-bit time, latitude, longitude, each lowest byte first |
| Plots.FlagBits | include/DronePlotDB.h:14-16 | NEW is bit 0 and UNSKEW bit 2 |
| Bytes.NarrowCongruent | src/DronePlotDB.cpp:38-47 | narrowing gives the 32-bit value that is congruent to the argument |
| Bytes.WrapCongruent | src/DronePlotDB.cpp:72-124 | a 64-bit time read back is the 64-bit value that is congruent to the one written |
| Plots.NewIsBitZero | src/DronePlotDB.cpp:196-206 | testing and clearing the NEW flag concerns bit 0 only |
| PlotDB.RecordAt | src/DronePlotDB.cpp:332-356 | record k of the concatenated records lies at byte 24k |
| PlotDB.ParsedRecords | src/DronePlotDB.cpp:332-399 | written plots are read back without flags, whatever follows them |
| PlotDB.FileRoundTrip | src/DronePlotDB.cpp:332-399 | loading what was written gives the same plots and count if and only if the old file was not longer than the new contents |
| FileDesc.ReadBytes | include/FileDesc.h:69-98 | a chunked read returns the next n bytes, or what is left |
| PlotDB.DronePlotDB.AddPlot | src/DronePlotDB.cpp:235-243 | appends one unflagged plot with its timestamp narrowed |
| PlotDB.DronePlotDB.SortByTime | src/DronePlotDB.cpp:485-491 | the list becomes the stable sort of itself |
| PlotDB.DronePlotDB.WriteBinaryFile | src/DronePlotDB.cpp:332-356 | the file holds one record per plot and the count is returned; throws if and only if some plot has drone 0 |
| PlotDB.DronePlotDB.LoadBinaryFile | src/DronePlotDB.cpp:367-399 | for any file of n bytes appends n/24 plots, and returns that number if 24 divides n, else -1 |
| Cipher.DecryptDataUndoes | src/TCPConn.cpp:143-163 | decryption undoes encryption for every block cipher, vector and message length, as cipher feedback of section 6.3 of NIST SP 800-38A |
| Cipher.XorByteExactly | src/TCPConn.cpp:143-163 | the combination of text and key stream is exclusive or, bit by bit |
| Cipher.EncryptIsFeedback | src/TCPConn.cpp:143-163 | each block of cipher text is the block of plain text under the encrypted previous block, the vector in front of the first |
| Cipher.DecryptNeedsKey | src/TCPConn.cpp:463-481 | another cipher decrypts a text of any length if and only if the two key streams agree, block by block |
| Cipher.AnswerNeedsKey | src/TCPConn.cpp:143-163 | for a challenge of one block: if and only if the two ciphers agree on the vector |
| Connection.TCPConn.HandleConnection | src/TCPConn.cpp:671-741 | one call does to the object exactly what the value function of its status says, or does not return normally |
| Connection.TCPConn.GetData | src/TCPConn.cpp:426-454 | reads everything that has arrived, in pieces of 1024 bytes; a lost link drops what was read and disconnects |
| Connection.TCPConn.DoWaitForChallenge | src/TCPConn.cpp:190-213 | a challenge is answered encrypted and moves the status on; a malformed frame disconnects |
| Connection.TCPConn.DoWaitForResponse | src/TCPConn.cpp:221-248 | a response that does not decrypt to the challenge disconnects; a verified client goes straight on to transmit |
| Connection.TCPConn.DoWaitForSID | src/TCPConn.cpp:270-301 | a server files the client under the identity it read, sends no identity of its own, and challenges |
| Connection.TCPConn.DoTransmitData | src/TCPConn.cpp:310-341 | a client writes its data only after reading a frame with the server's identity |
| Connection.TCPConn.DoWaitForData | src/TCPConn.cpp:351-382 | a well-formed data frame is kept, acknowledged, and ends the connection |
| Connection.TCPConn.DoAwaitAck | src/TCPConn.cpp:389-413 | anything that arrives ends the connection |
| Connection.TCPConn.Connect | src/TCPConn.cpp:607-615 | the status becomes connecting and the given address is dialled, whether or not that succeeds |
| Connection.TCPConn.GetInputData | src/TCPConn.cpp:576-583 | hands the data over once and makes the connection idle |
| Connection.TCPConn.AssignOutgoingData | src/TCPConn.cpp:625-631 | the output buffer is the framed data |
| Transfer.OnNothing | src/TCPConn.cpp:190-413 | with nothing to read a waiting connection stays as it is; a lost link closes it, and nothing is written |
| Transfer.OnChallenge | src/TCPConn.cpp:190-213 | for all input: a well-formed challenge is answered with a text that decrypts to it, and anything else closes the connection |
| Transfer.OnGreeting | src/TCPConn.cpp:270-301 | for all input: a well-formed greeting is taken down and challenged, and anything else closes the connection |
| Transfer.OnResponse | src/TCPConn.cpp:221-248 | for all input: exactly the responses that decrypt to the challenge are accepted |
| Transfer.OnServerResponse | src/TCPConn.cpp:221-341 | for all input: a client transmits if the right response and then an identity have arrived, waits if only the response has, and else closes |
| Transfer.OnData | src/TCPConn.cpp:351-382 | for all input: a well-formed data frame is stored, acknowledged once and the link closed, and anything else is refused |
| Transfer.OnAck | src/TCPConn.cpp:389-413 | for all input: a client that has sent its data closes |
| Transfer.CStrExactly | src/TCPConn.cpp:270-301 | an identity is taken down up to its first zero byte |
| Transfer.ResponseNeedsKey | src/TCPConn.cpp:190-248 | a response made under another cipher is accepted if and only if the two ciphers agree on the vector |
| Transfer.OnlyTheReplyIsMissing | src/TCPConn.cpp:270-413 | if the server's identity did arrive in time, the data would get through: written, stored as sent, acknowledged, closed |
| ConnSafety.RunKeepsShape | src/TCPConn.cpp:671-741 | over every run against any peer, everything read and written so far has the shape of the stage the connection is in |
| ConnSafety.ClientOrder | src/TCPConn.cpp:170-341 | a client writes its data at most once, directly after a response that decrypts to the very challenge it sent and then a well-formed identity frame |
| ConnSafety.ServerOrder | src/TCPConn.cpp:190-382 | a server that waits for the client's challenge has verified the client; data is ready only after it also answered the client's challenge, and nothing else is ever acknowledged |
| ConnSafety.StatusDiscipline | src/TCPConn.cpp:671-741 | the invalid-status exception is never raised, clients stay clients and servers stay servers, and the number of status changes is the rank reached, at most five |
| ConnSafety.RetryPort | src/TCPServer.cpp:172-197 | after k retries the original address is dialled with the port swapped k times: the original port if and only if k is even or its two bytes are equal |
| ConnSafety.SwapTwice | src/FileDesc.cpp:227-242 | the 16-bit swap exchanges the two bytes, is an involution, and the identity exactly on ports with two equal bytes |
| Handshake.PlayKeepsInv | src/TCPConn.cpp:671-741 | the states an honest client and server can reach together, for every defined run, whatever the interleaving and fragmentation of their writes |
| Handshake.DataNeverFlows | src/TCPConn.cpp:270-341 | in no defined run does an honest client transmit or an honest server have data; the server knows the client by its own identity |
| Handshake.StopsExactlyThere | src/TCPConn.cpp:256-341 | while both are connected, nothing more can happen if and only if each verified the other, the client waits for a response, the server for data, and no byte is unread |
| Survival.MoveExactly | src/TCPConn.cpp:190-301 | a move of an honest pair never throws, is undefined if and only if it reads 1 to 15 bytes of a response on a link that is up, and else keeps its mover connected if and only if it reads nothing or exactly the next message |
| Survival.RunDefinedExactly | src/TCPConn.cpp:221-248 | a whole run is undefined if and only if some move in it makes such a short read |
| Survival.RunSurvivesExactly | src/TCPConn.cpp:671-741 | a run completes with both sides connected if and only if every move in it reads nothing or exactly the next message, on a link that is up |
| Rendezvous.JoinedWritesFail | src/TCPConn.cpp:170-248 | for all challenges and vectors a run in which nothing is cut or lost, but two writes are read as one, makes the server disconnect |
| Rendezvous.CutResponseUndefined | src/TCPConn.cpp:463-481 | a run without lost links in which 5 bytes of a response are read has no defined result |
| Rendezvous.CutFrameFails | src/TCPConn.cpp:270-301 | a run without lost links in which one byte of the greeting is read makes the server disconnect |
| Rendezvous.StoppingIsReached | src/TCPConn.cpp:170-341 | for all challenges and vectors some run without cuts or losses takes the pair to that point with both sides connected and verified |
| Queueing.CycleQueuesAcked | src/QueueMgr.cpp:158-202 | one cycle queues exactly the payloads that connections acknowledged in it, in list order, and leaves no unread data behind |
| Queueing.AcknowledgedMeansQueued | src/QueueMgr.cpp:158-202 | in every run the payloads ever acknowledged and the received elements ever queued are the same sequence |
| Queueing.VisitAcks | src/TCPServer.cpp:164-222 | one visit acknowledges data exactly when it stores some, and never erases a connection with unread data |
| Queueing.PassNeverThrows | src/TCPServer.cpp:164-222 | walking a list that a run produced never raises the invalid-status exception |
| Walk.WalkKeepsNeeded | src/TCPServer.cpp:164-222 | a walk erases exactly the connections that are not up, not to be dialled again and without data to hand over, and keeps the order of the others |
| Walk.CycleKeepsNeeded | src/QueueMgr.cpp:158-202 | the same for every cycle of every run: what is no longer needed is gone |
| Walk.ConnectedIsCalled | src/TCPServer.cpp:210-219 | a connection that is up and not idle is called, and the call's outcome is that of the visit |
| Walk.VisitKeepsOwner | src/TCPServer.cpp:164-222 | a visit changes neither the address a connection belongs to nor what it has to send |
| Walk.CallerKeptIfAllowed | src/TCPServer.cpp:106-153 | in the cycle that accepts it, a caller is kept with its address if the whitelist has it, and erased if not |
| Walk.FailedDialWaits | src/TCPServer.cpp:172-197 | a failed dial is repeated by the first visit that is at least five seconds later, and not before |
| Walk.FailedLaunchWaits | src/QueueMgr.cpp:276-314 | the same after the first dial; one that succeeds leads to a greeting at once |
| Walk.CycleExactly | src/QueueMgr.cpp:177-202 | a cycle goes through if and only if its walk does and no empty payload was acknowledged in it |
| Walk.ReceivedComesFrom | src/QueueMgr.cpp:177-202 | every received element names the verified client it came from, by the identity that was read first, and carries the data that was acknowledged |
| QueueMgr.QueueMgr.HandleSocket | src/TCPServer.cpp:106-153 | at most one caller is appended; one that the whitelist refuses is closed but stays listed |
| QueueMgr.QueueMgr.VisitConnection | src/TCPServer.cpp:170-219 | redial, keep, call or erase one connection, exactly as the value function says |
| QueueMgr.QueueMgr.HandleConnections | src/TCPServer.cpp:164-222 | the walk with an erasing iterator visits each connection once and leaves exactly those the value function keeps |
| QueueMgr.QueueMgr.PopulateQueue | src/QueueMgr.cpp:177-202 | all unread data moves into the queue in list order; throws if and only if some of it is empty |
| QueueMgr.QueueMgr.HandleQueue | src/QueueMgr.cpp:158-172 | accept, walk, collect: the state after one cycle |
| QueueMgr.QueueMgr.SendToAll | src/QueueMgr.cpp:212-231 | one element per server, in list order, and no unknown server is introduced |
| QueueMgr.QueueMgr.Pop | src/QueueMgr.cpp:246-266 | returns the first received element after turning every element before it into a connection; throws if and only if one of these names an unknown server |
| QueueMgr.QueueMgr.LaunchDataConn | src/QueueMgr.cpp:276-314 | lists one connection to the named server with the framed data, whether or not the dial succeeds |
| WorkQueue.DrainPartitions | src/QueueMgr.cpp:246-266 | popping until nothing is left is a stable partition into received elements and elements to send |
| WorkQueue.OneConnectionPerSend | src/QueueMgr.cpp:246-314 | draining makes one connecting connection per element to send, in order, with its server's name, address and port and its framed data |
| WorkQueue.OneConnectionPerPeer | src/QueueMgr.cpp:212-314 | what is queued for all servers becomes exactly one connection to each, under its name, address and port, with the framed data |
| WorkQueue.ToAllKnown | src/QueueMgr.cpp:212-231 | elements queued for all servers never meet the unknown-server exception |
| AntennaSim.RoundsAddUp | src/AntennaSim.cpp:104-149 | however often the clock is read in between, the same plots are injected in the same order |
| AntennaSim.AntennaSim.InjectDue | src/AntennaSim.cpp:136-149 | every due plot moves, narrowed and flagged NEW, from the front of the source to the end of the database |
| AntennaSim.AntennaSim.ApplyOffset | src/AntennaSim.cpp:101-104 | every source time moves by the offset and nothing else changes |
| NodeRuns.Conservation | src/ReplServer.cpp:87-277 | in every run each arrival is stored or was erased, once, and each injected plot is still new, was serialized, or was erased while new |
| NodeRuns.FateOfArrival | src/ReplServer.cpp:230-328 | for every arrival exactly one of these holds; a plot received from a peer is never serialized |
| NodeRuns.BatchesDeliver | src/ReplServer.cpp:257-271 | every payload ever made is queued once per server and unmarshals to exactly the injected plots it stands for, their times moved by the passes made before it was sent, and narrowed |
| NodeRuns.BatchReachesPeers | src/QueueMgr.cpp:212-314 | every batch is dialled to every peer with bytes that unwrap and unmarshal to the plots it stands for |
| NodeRuns.TimestampAccounting | src/ReplServer.cpp:207-212 | a stored plot is the plot that arrived, its time reduced by the skew of its node in every pass since; UNSKEW is never set |
| NodeRuns.DifferencePersists | src/ReplServer.cpp:207-212 | two plots of one node keep their time difference for as long as both are stored |
| Program.IterationIsRun | src/ReplServer.cpp:87-215 | an iteration of the replication loop is such a run: it leaves the same plots and saved size, has to send what the run's batch queued, and received the plots that arrive from peers |
| Program.ProgramIsRun | src/ReplServer.cpp:87-215 | any number of iterations, injections and arrivals has a history with the same plots in which conservation, timestamps and deliveries hold, whose batches queued exactly what the program ever had to send, and whose arrivals from peers are in order what it ever received |
| Program.AcknowledgedArriveOnce | src/QueueMgr.cpp:158-202 | the payloads that connections ever acknowledged unmarshal, in order, to the plots that ever arrived from peers, each stored or erased by a pass exactly once |
| Program.ShiftedTwice | src/ReplServer.cpp:207-212 | a run in which one plot is moved by two passes, 32 seconds in all, without any match |

## Left out

- Connection.TCPConn.GetData: `select`, `recv` and `errno` are replaced by the bytes that have arrived and a mark for a lost link; a socket error and a lost link have the same effect here.
- Connection.TCPConn.DoWaitForChallenge: the block cipher is an arbitrary function, challenges and vectors are arbitrary values; key loading and random generators are not modelled. Encryption in place is a function on values.
- Handshake.PlayKeepsInv: identities and challenges are assumed to contain no end tag, and identities no zero byte, as the names and the random printable strings of honest servers do except by chance.
- Marshal.UnmarshalPayload: says nothing for 2^32 or more new plots in one payload, where the 32-bit counter wraps; `Marshal.NewCount` models the wrap itself.
- QueueMgr.QueueMgr.Pop: one clock reading serves all dials of one call, and one serves a whole `ReplServer.ReplServer.DrainQueue`.
- ReplServer.ReplServer.EraseMatches: list iterators are positions in a sequence; the saved end iterator is the position of the last plot, and a call is undefined from the moment that plot is erased.
- ReplServer.ReplServer.Deconflict: the sums of timestamps and skews are unbounded integers; 64-bit overflow is not modelled there.
- Program.ProgramIsRun: injections fall between iterations here; `NodeRuns.Conservation` allows them between any two steps of one.
- NodeRuns.Conservation: database calls and injections are atomic steps; the injection is several calls in the program, and finer thread races between the simulator and the replication thread are not covered.
- AntennaSim.AntennaSim.InjectDue: the clock is an arbitrary real number; sleeping and the computation of adjusted time are not modelled.
- PlotDB.SortIsStable: `std::list::sort` is described by its result, a stable sort, not by its merging.
- PlotDB.DronePlotDB.WriteBinaryFile: failures to open or write a file are not modelled.
- CSV files, the server list text, `bindSvr` and the loading of the whitelist: text handling, nothing that the other parts rely on.
- Logging, command lines and the `main` programs.
