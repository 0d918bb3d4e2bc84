# Centreon collect: a verified model of its sequential cores

This project models in Dafny the self-contained, sequential parts of the
Centreon monitoring stack (Centreon Engine, Centreon Broker and the build and
test tooling around them) and proves the properties their code promises.
Sockets, databases, TLS libraries, threads, clocks and files are replaced by
parameters: each model takes what the foreign call would return, or records
what would have been sent.

Engine configuration:

- `ConfigState` (config_state.dfy) reads the main configuration file. It
  joins physical lines continued with a backslash, trims blanks and
  dispatches each `key=value` line to its setter. It models the checking,
  clamping and string-to-enum setters, the coupling between
  `command_check_interval` and `interval_length`, `$USERn$` resource files
  and broker modules. The `State` class reads the configuration line by line.
- `ObjectParser` (object_parser.dfy) is the `define <type> { ... }` state
  machine. It registers templates and objects in one table slot per object
  type, resolves host groups and object names, and empties its tables at the
  end. The `Parser` class holds those tables.
- `ConfigObject` (config_object.dfy) holds the object type numbering, the
  "whole text must parse" typed setter and the template-merge rules.
- `ServicedependencyApplier` (servicedependency_applier.dfy) expands service
  dependencies into one-to-one execution and notification dependencies. It
  also adds, removes and resolves them against the engine's dependency table.
- `ObjectUtils` (object_utils.dfy) unlinks a node from a singly linked object
  list kept through head and tail pointers, and copies a NULL-terminated
  array into a sequence.
- `TimeperiodUtils` (timeperiod_utils.dfy) holds the time-period test
  helpers: hours and minutes to seconds, the prepend-only list of periods the
  test creator owns, and the fake clock.

Broker:

- `Muxer` (muxer.dfy) is the multiplexing queue. It has an in-memory event
  list with a read cursor, an overflow queue file, a size limit, write
  filters, and acknowledgement and rewind.
- `BbdoOutput` (bbdo_output.dfy) is the BBDO serializer. It encodes fields
  big-endian, splits the payload into packets of at most 0xFFFF bytes with
  patched headers and checksums, and is driven by the output stream.
- `GraphiteMacroCache` (macro_cache.dfy) holds the Graphite macro cache's
  id-keyed tables, where the last write wins and a missing key is an error.
- `TcpAcceptor` (tcp_acceptor.dfy) keeps the acceptor's list of peer names
  and its statistics line.
- `BamBoolEqual` and `BoolBinaryOperator` (bool_equal.dfy,
  bool_binary_operator.dfy) are the BAM equality test and the binary
  operator's cache of its children's values and state flags.
- `Influxdb8` (influxdb8.dfy) builds the InfluxDB 0.8 query body, its
  Content-Length and the request.
- `EndpointApplier` (endpoint_applier.dfy) diffs the endpoint configuration
  into endpoints to create, keep or stop. It filters failovers and builds a
  connector chain from the protocol layers.
- `TlsParams` (tls_params.dfy) covers the TLS parameters' anonymous or
  certificate mode, certificate checking, the priority string, and the
  stream and acceptor `Close`.
- `MysqlConnection` (mysql_connection.dfy) holds the MySQL connection's
  server-error classification, deadlock retry and commit loop, the statement
  table, and the task loop, which runs each task through its handler
  and pops it while no error is active.

Tooling:

- `Acceptance` (acceptance.dfy) is the acceptance-test driver. It maps a
  directory alias to a project, writes the docker-compose file by ordered
  literal token replacement, builds the container and loops over the
  features.
- `FindInLog` (find_in_log.dfy) is the test suite's log search: a bisection
  on dates, then a substring search.

`Common` (common.dfy) holds the shared Option and Result types and the
decimal text helpers.

## Model

| member | source | states |
|---|---|---|
| BamBoolEqual.Equal | broker/bam/src/bool_equal.cc:31-35 | the comparison is always 0 or 1, and it is 1 exactly when the two values differ by less than the tolerance |
| BamBoolEqual.EqualSymmetric | broker/bam/src/bool_equal.cc:31-46 | swapping the left and right values does not change the result |
| BamBoolEqual.EqualReflexive | broker/bam/src/bool_equal.cc:31-46 | with a positive tolerance a value always equals itself |
| BamBoolEqual.ValueHard | broker/bam/src/bool_equal.cc:31-35 | the hard evaluation is 0 or 1, and it is 1 exactly when the cached hard values are within the tolerance |
| BamBoolEqual.ValueSoft | broker/bam/src/bool_equal.cc:42-46 | the soft evaluation is 0 or 1, and it is 1 exactly when the cached soft values are within the tolerance |
| BamBoolBinaryOperator.Abs | broker/bam/src/bool_binary_operator.cc:55-56 | the absolute value is non-negative and equals the value or its negation |
| BamBoolBinaryOperator.BoolValue.constructor | broker/bam/src/bool_binary_operator.cc:53-54 | a child carries the hard and soft values, known flag and downtime flag it is built with |
| BamBoolBinaryOperator.SameValuesNotMoved | broker/bam/src/bool_binary_operator.cc:55-56 | values equal to the cached ones never count as moved, so a repeated update changes nothing |
| BamBoolBinaryOperator.KnownOf | broker/bam/src/bool_binary_operator.cc:134-139 | the state is known only when both children are set, and then exactly when both know their state |
| BamBoolBinaryOperator.DowntimeOf | broker/bam/src/bool_binary_operator.cc:146-148 | the operator is in downtime exactly when some set child is in downtime |
| BamBoolBinaryOperator.BoolBinaryOperator.constructor | broker/bam/src/bool_binary_operator.cc:29-35 | a new operator has no children, all four cached values at 0 and both flags false |
| BamBoolBinaryOperator.BoolBinaryOperator.StateKnown | broker/bam/src/bool_binary_operator.cc:134-139 | true exactly when both children are set and both know their state |
| BamBoolBinaryOperator.BoolBinaryOperator.InDowntime | broker/bam/src/bool_binary_operator.cc:146-148 | true exactly when the left or the right child is set and in downtime |
| BamBoolBinaryOperator.BoolBinaryOperator.ChildHasUpdate | broker/bam/src/bool_binary_operator.cc:45-101 | an update from the left child (compared first) or the right child replaces that side's cached values and returns true exactly when one moved by more than 1e-6, leaving everything else as it was; any other child changes nothing and returns false; a null child recomputes both flags and returns true exactly when one changed |
| BamBoolBinaryOperator.BoolBinaryOperator.SetLeft | broker/bam/src/bool_binary_operator.cc:108-114 | the left child is replaced, its values are copied, the right side is kept and both flags equal their recomputed values |
| BamBoolBinaryOperator.BoolBinaryOperator.SetRight | broker/bam/src/bool_binary_operator.cc:121-127 | the right child is replaced, its values are copied, the left side is kept and both flags equal their recomputed values |
| TcpAcceptor.RemoveAll | broker/tcp/src/acceptor.cc:92-95 | the result holds exactly the entries other than the name, and it is shorter by the number of occurrences of the name |
| TcpAcceptor.RemoveAllAppend | broker/tcp/src/acceptor.cc:92-95 | removal distributes over concatenation, so the remaining names keep their relative order |
| TcpAcceptor.RemoveAllAbsent | broker/tcp/src/acceptor.cc:92-95 | removing a name that is not in the list leaves the list unchanged |
| TcpAcceptor.Acceptor.constructor | broker/tcp/src/acceptor.cc:56-59 | a new acceptor has no children |
| TcpAcceptor.Acceptor.AddChild | broker/tcp/src/acceptor.cc:56-59 | the name is appended at the end of the children list |
| TcpAcceptor.Acceptor.RemoveChild | broker/tcp/src/acceptor.cc:92-95 | the children list becomes the old one with every entry equal to the name removed |
| TcpAcceptor.Acceptor.Stats | broker/tcp/src/acceptor.cc:102-106 | the peers text is the count, ": ", then the names joined by ", " |
| TcpAcceptor.PeersText | broker/tcp/src/acceptor.cc:102-106 | the statistics text of no peer is "0: ", and of one peer "1: " followed by its name; Stats returns it for the current list |
| TcpAcceptor.ScenarioFacts | broker/tcp/test/acceptor.cc:942-953 | removing child2 from child1, child2, child3 leaves child1, child3, whose peers text is "2: child1, child3" |
| TcpAcceptor.ChildrenAndStats | broker/tcp/test/acceptor.cc:942-953 | adding child1, child2 and child3 to a new acceptor and removing child2 gives the peers text "2: child1, child3" |
| Influxdb8.Record | centreon-broker/influxdb/src/influxdb8.cc:98-107 | a point is bracketed: it starts with '[' and ends with ']' |
| Influxdb8.ContentLength | centreon-broker/influxdb/src/influxdb8.cc:120-122 | the declared length is the query's length plus the header's and footer's, which is the length of the posted body |
| Influxdb8.Request | centreon-broker/influxdb/src/influxdb8.cc:120-128 | the request starts with the request line and ends with the body (header, points, footer) that Content-Length counts |
| Influxdb8.JoinEmptyIff | centreon-broker/influxdb/src/influxdb8.cc:108-110 | points joined by commas give the empty query exactly when there are no points |
| Influxdb8.Influxdb8Writer.constructor | centreon-broker/influxdb/src/influxdb8.cc:35-55 | the query starts empty and the request line is "POST /db/<db>/series?u=<user>&p=<passwd>&time_precision=s HTTP/1.0\n" |
| Influxdb8.ConnectError | centreon-broker/influxdb/src/influxdb8.cc:148-155 | the connection error names the server address, as `_connect_socket` throws it |
| Influxdb8.Open | centreon-broker/influxdb/src/influxdb8.cc:35-55 | a failed trial connection gives no writer and the `_connect_socket` error; otherwise a fresh writer with an empty query and the request line |
| Influxdb8.Influxdb8Writer.Clear | centreon-broker/influxdb/src/influxdb8.cc:88-90 | the query becomes empty and the request line is kept |
| Influxdb8.Influxdb8Writer.Write | centreon-broker/influxdb/src/influxdb8.cc:97-111 | the point is appended to the points, preceded by a comma unless the query was empty, so the query stays the points joined by single commas |
| Influxdb8.Influxdb8Writer.Commit | centreon-broker/influxdb/src/influxdb8.cc:116-143 | an empty query sends nothing; a failed connection or an incomplete write is an error that keeps the query; a complete write sends exactly the request and empties the query |
| GraphiteMacroCache.IndexMappingOf | centreon-broker/graphite/src/macro_cache.cc:64-71 | the lookup succeeds exactly when the index id is stored, and then gives the stored mapping |
| GraphiteMacroCache.MetricMappingOf | centreon-broker/graphite/src/macro_cache.cc:80-86 | the lookup succeeds exactly when the metric id is stored, and then gives the stored mapping |
| GraphiteMacroCache.HostNameOf | centreon-broker/graphite/src/macro_cache.cc:95-106 | the lookup succeeds exactly when the host id is stored, and then gives the name of the stored host or protobuf host |
| GraphiteMacroCache.ServiceDescriptionOf | centreon-broker/graphite/src/macro_cache.cc:116-130 | the lookup succeeds exactly when the (host id, service id) pair is stored, and then gives the stored description |
| GraphiteMacroCache.InstanceNameOf | centreon-broker/graphite/src/macro_cache.cc:139-145 | the lookup succeeds exactly when the instance id is stored, and then gives the stored name |
| GraphiteMacroCache.IgnoredEvents | centreon-broker/graphite/src/macro_cache.cc:152-180 | null data and an unrecognised event type leave every table unchanged |
| GraphiteMacroCache.HostWriteThenRead | centreon-broker/graphite/src/macro_cache.cc:197-210 | after a host or protobuf host is written, looking up its id gives its name |
| GraphiteMacroCache.ServiceWriteThenRead | centreon-broker/graphite/src/macro_cache.cc:217-230 | after a service or protobuf service is written, looking up its (host id, service id) gives its description |
| GraphiteMacroCache.HostLastWriteWins | centreon-broker/graphite/src/macro_cache.cc:197-210 | host and protobuf host share one table: whichever is written last for an id gives the name |
| GraphiteMacroCache.ServiceLastWriteWins | centreon-broker/graphite/src/macro_cache.cc:217-230 | service and protobuf service share one table: whichever is written last for a key gives the description |
| GraphiteMacroCache.HostWriteOtherId | centreon-broker/graphite/src/macro_cache.cc:152-210 | writing an event that is not a host with that id leaves the host lookup for the id unchanged |
| GraphiteMacroCache.IndexMappingLastWriteWins | centreon-broker/graphite/src/macro_cache.cc:237-241 | of two index mappings written for the same index, the lookup gives the second |
| GraphiteMacroCache.MacroCache.constructor | centreon-broker/graphite/src/macro_cache.cc:32-41 | a cache built without a persistent cache has all five tables empty |
| GraphiteMacroCache.MacroCache.Write | centreon-broker/graphite/src/macro_cache.cc:152-252 | the tables become the effect of the event on the old tables: stored under its id in its table, replacing an earlier entry, or ignored |
| GraphiteMacroCache.Apply | centreon-broker/graphite/src/macro_cache.cc:152-252 | writing an event never removes an entry from any table; the write-then-read and last-write-wins lemmas state what it stores |
| GraphiteMacroCache.MacroCache.GetIndexMapping | centreon-broker/graphite/src/macro_cache.cc:64-71 | an error exactly when the index id is absent, otherwise the stored mapping |
| GraphiteMacroCache.MacroCache.GetMetricMapping | centreon-broker/graphite/src/macro_cache.cc:80-86 | an error exactly when the metric id is absent, otherwise the stored mapping |
| GraphiteMacroCache.MacroCache.GetHostName | centreon-broker/graphite/src/macro_cache.cc:95-106 | an error exactly when the host id is absent, otherwise the stored host's name |
| GraphiteMacroCache.MacroCache.GetServiceDescription | centreon-broker/graphite/src/macro_cache.cc:116-130 | an error exactly when the service key is absent, otherwise the stored description |
| GraphiteMacroCache.MacroCache.GetInstance | centreon-broker/graphite/src/macro_cache.cc:139-145 | an error exactly when the instance id is absent, otherwise the stored instance name |
| Muxer.QueueMaxSize | centreon-broker/core/src/multiplexing/muxer.cc:180-185 | a requested limit of 0 means the largest 32-bit value; any other request is used as given |
| Muxer.AfterPush | centreon-broker/core/src/multiplexing/muxer.cc:444-453 | the event is appended and counted, the rest is unchanged, and a cursor that was at the end now points at the new event |
| Muxer.AfterPublish | centreon-broker/core/src/multiplexing/muxer.cc:201-218 | a null event or one outside the write filters changes nothing; at the limit the event is appended to the queue file, which is then open; below it the event is appended to memory and counted |
| Muxer.Popped | centreon-broker/core/src/multiplexing/muxer.cc:133-146 | acknowledging pops nothing for a count of 0 or less, and otherwise the smaller of the count and the number of events already read, so never the event under the cursor |
| Muxer.RefillCount | centreon-broker/core/src/multiplexing/muxer.cc:151-157 | the refill takes nothing once the counter reaches the limit, and otherwise as many file events as fit below the limit or as the file holds |
| Muxer.AfterRefill | centreon-broker/core/src/multiplexing/muxer.cc:151-157 | the refilled queue is still well formed (cursor in range, counter equal to the number of events in memory) |
| Muxer.AfterAck | centreon-broker/core/src/multiplexing/muxer.cc:128-160 | acknowledging keeps the queue well formed |
| Muxer.AfterRead | centreon-broker/core/src/multiplexing/muxer.cc:228-259 | with an event under the cursor, read returns it and advances the cursor by one; at the end it returns nothing and changes nothing |
| Muxer.AfterNack | centreon-broker/core/src/multiplexing/muxer.cc:310-317 | the cursor goes back to the front and the events, file and counter are unchanged |
| Muxer.RefillKeepsStream | centreon-broker/core/src/multiplexing/muxer.cc:151-157 | the refill moves events from the front of the file to the end of memory: the queued sequence (memory then file) and the cursor are unchanged |
| Muxer.RefillFillsUpToLimit | centreon-broker/core/src/multiplexing/muxer.cc:152-157 | below the limit the refill stops at the limit, or earlier only when the file is exhausted; at or above it nothing moves |
| Muxer.PoppedState | centreon-broker/core/src/multiplexing/muxer.cc:135-146 | popping k read events leaves a well-formed queue whose events are the old ones after the first k |
| Muxer.AckRemovesReadPrefix | centreon-broker/core/src/multiplexing/muxer.cc:128-160 | a non-zero acknowledgement removes exactly the oldest popped events and keeps the order of the rest, and the cursor moves back by the number popped; a count of 0 changes nothing |
| Muxer.AckAllRead | centreon-broker/core/src/multiplexing/muxer.cc:128-160 | acknowledging all the events read pops exactly those, leaving the cursor at the front |
| Muxer.PublishAppends | centreon-broker/core/src/multiplexing/muxer.cc:201-218 | an accepted event joins the end of the queued sequence and the file holds events only while memory is full |
| Muxer.AckKeepsOrdered | centreon-broker/core/src/multiplexing/muxer.cc:128-160 | after an acknowledgement the file still holds events only while memory is full, so the queue stays first-in first-out |
| Muxer.ReadAndNackKeepStream | centreon-broker/core/src/multiplexing/muxer.cc:228-317 | read and nack leave the queued sequence unchanged |
| Muxer.InitialPosAsWritten | centreon-broker/core/src/multiplexing/muxer.cc:79-99 | as written, the initial cursor is the front when the memory file gave events, and otherwise sits after every event loaded from the queue file |
| Muxer.RecoveredEventsUnreadable | centreon-broker/core/src/multiplexing/muxer.cc:79-99 | as written, a muxer whose events all come from the queue file reads nothing at first |
| Muxer.RecoveredReadAfterNack | centreon-broker/core/src/multiplexing/muxer.cc:310-317 | on the as-written initial state, a nack rewinds the cursor so the first recovered event is then read |
| Muxer.RecoveredEventsReadable | centreon-broker/core/src/multiplexing/muxer.cc:59-99 | with the cursor at the front, the first recovered event is the first one read |
| Muxer.MuxerQueue.constructor | centreon-broker/core/src/multiplexing/muxer.cc:44-109 | the memory file (when persistent) is loaded, then queue-file events while the counter is below the limit with at least one read; the rest stays in the file, which is closed once exhausted, and the cursor is at the front |
| Muxer.MuxerQueue.LoadQueueFile | centreon-broker/core/src/multiplexing/muxer.cc:81-99 | the do-while moves at least one event, then more while the counter is below the limit, and closes the file when it is read past its end |
| Muxer.MuxerQueue.GetEventFromFile | centreon-broker/core/src/multiplexing/muxer.cc:397-411 | without a file there is no event; at the end of the file there is no event and the file is closed; otherwise the first event of the file is taken |
| Muxer.MuxerQueue.SetEventQueueMaxSize | centreon-broker/core/src/multiplexing/muxer.cc:180-185 | the limit becomes the value QueueMaxSize picks |
| Muxer.MuxerQueue.Publish | centreon-broker/core/src/multiplexing/muxer.cc:201-218 | the new state is AfterPublish of the old one |
| Muxer.MuxerQueue.PushToQueue | centreon-broker/core/src/multiplexing/muxer.cc:444-453 | the new state is AfterPush of the old one |
| Muxer.MuxerQueue.Read | centreon-broker/core/src/multiplexing/muxer.cc:228-259 | the event and new state are AfterRead of the old state; it reports a timeout only when nothing was available and the wait timed out |
| Muxer.MuxerQueue.AckEvents | centreon-broker/core/src/multiplexing/muxer.cc:128-160 | the new state is AfterAck of the old one |
| Muxer.MuxerQueue.Refill | centreon-broker/core/src/multiplexing/muxer.cc:151-157 | the new state is AfterRefill of the old one |
| Muxer.MuxerQueue.NackEvents | centreon-broker/core/src/multiplexing/muxer.cc:310-317 | the new state is AfterNack of the old one |
| Muxer.MuxerQueue.Write | centreon-broker/core/src/multiplexing/muxer.cc:357-361 | an event whose type the read filters accept is forwarded, anything else is dropped, and the result is always 1 |
| BbdoOutput.BE16 | centreon-broker/core/src/bbdo/output.cc:91-94 | a 16-bit value in network byte order takes two bytes |
| BbdoOutput.BE32 | centreon-broker/core/src/bbdo/output.cc:77-80 | a 32-bit value in network byte order takes four bytes |
| BbdoOutput.DecodeBE16 | centreon-broker/core/src/bbdo/output.cc:91-94 | reading two big-endian bytes gives a value below 2^16 |
| BbdoOutput.DecodeBE32 | centreon-broker/core/src/bbdo/output.cc:77-80 | reading four big-endian bytes gives a value below 2^32 |
| BbdoOutput.BE16RoundTrip | centreon-broker/core/src/bbdo/output.cc:91-94 | decoding the two bytes of a 16-bit value gives the value back |
| BbdoOutput.BE32RoundTrip | centreon-broker/core/src/bbdo/output.cc:77-80 | decoding the four bytes of a 32-bit value gives the value back |
| BbdoOutput.EncodeField | centreon-broker/core/src/bbdo/output.cc:46-141 | a bool is one byte 1 or 0; ints and uints are 4 bytes; shorts 2; timestamps 8; a string is its UTF-8 bytes and one NUL; a double's printing is at most 32 bytes ending in NUL; only an unknown type id is an error |
| BbdoOutput.IntRoundTrip | centreon-broker/core/src/bbdo/output.cc:73-82 | a signed 32-bit integer is encoded as its two's complement, so reading it back as signed gives the integer |
| BbdoOutput.UIntAndShortRoundTrip | centreon-broker/core/src/bbdo/output.cc:87-96 | encoded unsigned integers and shorts decode to themselves |
| BbdoOutput.TimeRoundTrip | centreon-broker/core/src/bbdo/output.cc:113-127 | a timestamp's 8 bytes are its high 32 bits then its low 32 bits, so high * 2^32 + low gives it back |
| BbdoOutput.EncodeEntries | centreon-broker/core/src/bbdo/output.cc:179-211 | there is one part per entry, and encoding fails exactly when some serialized entry has an unknown type id; entries not serialized never fail |
| BbdoOutput.PacketizeSizes | centreon-broker/core/src/bbdo/output.cc:213-236 | when no field exceeds 0xFFFF bytes, every closed packet holds exactly 0xFFFF bytes, the last holds fewer, and the packets hold the whole payload in order |
| BbdoOutput.Packetize | centreon-broker/core/src/bbdo/output.cc:213-236 | the payload is cut as the fields arrive, and every packet it closes is a full one of 0xFFFF bytes; PacketizeSizes adds that the packets hold the payload in order |
| BbdoOutput.NoSplitWhileSmall | centreon-broker/core/src/bbdo/output.cc:213-236 | a payload shorter than 0xFFFF bytes is never split |
| BbdoOutput.PacketHeader | centreon-broker/core/src/bbdo/output.cc:239-249 | a header is 8 bytes, declares the size and the event type, and starts with the checksum of its last 6 bytes |
| BbdoOutput.SmallEventIsOnePacket | centreon-broker/core/src/bbdo/output.cc:150-251 | an event whose payload is shorter than 0xFFFF bytes is one packet: a header declaring the payload's length, then the source id, the destination id and the fields |
| BbdoOutput.Placeholder | centreon-broker/core/src/bbdo/output.cc:159-164 | the reserved header is 8 bytes |
| BbdoOutput.Patch | centreon-broker/core/src/bbdo/output.cc:216-227 | overwriting bytes at an offset keeps the length and every byte outside the patched range |
| BbdoOutput.FinishHeader | centreon-broker/core/src/bbdo/output.cc:239-249 | writing the size and then the checksum into a reserved header gives the finished header |
| BbdoOutput.SplitLayout | centreon-broker/core/src/bbdo/output.cc:213-236 | closing a full packet gives it the size 0xFFFF and its checksum and inserts a new header in front of the overflow |
| BbdoOutput.AppendField | centreon-broker/core/src/bbdo/output.cc:179-236 | appending one entry's bytes, and splitting when the packet is full, keeps the buffer equal to the closed packets, a reserved header and the current payload |
| BbdoOutput.Serialize | centreon-broker/core/src/bbdo/output.cc:150-259 | an unregistered type gives no packet; otherwise the buffer built in place fails exactly when the specification does, and otherwise equals the specified packets |
| BbdoOutput.Serialized | centreon-broker/core/src/bbdo/output.cc:150-259 | serialising fails exactly when one of the entries cannot be encoded; SmallEventIsOnePacket gives the packet of a short event |
| BbdoOutput.Output.constructor | centreon-broker/core/src/bbdo/output.cc:270 | a new output stream processes output |
| BbdoOutput.Output.Process | centreon-broker/core/src/bbdo/output.cc:306-310 | only the output flag is kept |
| BbdoOutput.Output.Write | centreon-broker/core/src/bbdo/output.cc:342-358 | with output off the call fails with the shutdown error; a null event is forwarded as is; an unregistered type forwards nothing; otherwise the serialized packets are forwarded, or the serialization error is raised; one event is acknowledged |
| EndpointApplier.NamedIndex | core/src/config/applier/endpoint.cc:136-141 | the index found is the first endpoint with the name, and there is none exactly when no endpoint has that name |
| EndpointApplier.ProtocolIndex | core/src/config/applier/endpoint.cc:167-179 | the protocol found is the first that starts at the level and whose factory accepts the configuration, and there is none exactly when no protocol qualifies |
| EndpointApplier.UpperLayers | core/src/config/applier/endpoint.cc:164-184 | the upper-layer search only stacks layers on top of those already built |
| EndpointApplier.UpperLayersFromProtocols | core/src/config/applier/endpoint.cc:164-184 | every layer stacked from a level on is a registered protocol starting between that level and 7 |
| EndpointApplier.UpperLayersFound | core/src/config/applier/endpoint.cc:170-177 | a level with an accepting protocol stacks it and the search resumes just above its top level |
| EndpointApplier.UpperLayersMissing | core/src/config/applier/endpoint.cc:180-182 | level 7 without an accepting protocol is the "no matching protocol" error |
| EndpointApplier.UpperLayersSkip | core/src/config/applier/endpoint.cc:180-183 | a level below 7 without an accepting protocol is skipped |
| EndpointApplier.Layers | core/src/config/applier/endpoint.cc:145-184 | without an accepting level-1 protocol creation fails; a built stack starts with a registered level-1 protocol |
| EndpointApplier.MissingFailoverFails | core/src/config/applier/endpoint.cc:136-141 | a named failover that matches no endpoint is an error whatever the protocols |
| EndpointApplier.CreatedShape | core/src/config/applier/endpoint.cc:126-192 | a created failover thread has the endpoint's direction and retry interval and a level-1 bottom layer; it has a failover exactly when one is named, and that failover is the one built (first) for the first endpoint of that name, as an input when this one is an input or an output |
| EndpointApplier.FindNamed | core/src/config/applier/endpoint.cc:137 | the loop finds the index NamedIndex specifies |
| EndpointApplier.FindProtocol | core/src/config/applier/endpoint.cc:167-179 | the loop finds the index ProtocolIndex specifies |
| EndpointApplier.NextLayer | core/src/config/applier/endpoint.cc:165-184 | one pass of the upper-layer loop either fails exactly as the specification does or moves strictly upwards without changing the specified result |
| EndpointApplier.BuildLayers | core/src/config/applier/endpoint.cc:145-184 | the two loops build exactly the specified layer stack or its error |
| EndpointApplier.CreateEndpoint | core/src/config/applier/endpoint.cc:126-192 | the recursive creation gives exactly the specified failover thread or error |
| EndpointApplier.CreateSpec | core/src/config/applier/endpoint.cc:126-192 | a created endpoint has its own layers built, and has a failover exactly when one is named; MissingFailoverFails and CreatedShape state the rest |
| EndpointApplier.Diff | core/src/config/applier/endpoint.cc:205-215 | what remains to stop is part of the current entries, and what is created comes from the new list |
| EndpointApplier.DiffStopsAbsent | core/src/config/applier/endpoint.cc:205-228 | the entries stopped are exactly the current ones absent from the new list |
| EndpointApplier.Without | core/src/config/applier/endpoint.cc:205-215 | an entry is kept exactly when it is in the list and not in the set |
| EndpointApplier.DiffCreatesNew | core/src/config/applier/endpoint.cc:205-215 | without repeated entries in the new list, the entries created are exactly the new ones not running, in list order, so an entry both running and configured is neither created nor stopped |
| EndpointApplier.WithoutIgnoresAbsent | core/src/config/applier/endpoint.cc:205-215 | dropping from the set an entry that is not in the list does not change what is kept |
| EndpointApplier.FailoversNotStarted | core/src/config/applier/endpoint.cc:277-323 | the start loop keeps the entries already there, and every entry it adds is to be created and either unnamed or named as no other entry's failover |
| EndpointApplier.Applier.constructor | core/src/config/applier/endpoint.cc:87 | a new applier has no inputs and no outputs |
| EndpointApplier.Applier.DiffEndpoints | core/src/config/applier/endpoint.cc:201-230 | the loop computes the specified diff on a copy and leaves the current table as it is |
| EndpointApplier.Applier.StartsDirectlyCheck | core/src/config/applier/endpoint.cc:283-287 | the search decides that an entry starts directly exactly when it is unnamed or no entry to create names it as its failover |
| EndpointApplier.Applier.StartAll | core/src/config/applier/endpoint.cc:278-299 | the start loop registers exactly what the specification of the creation sequence gives, stopping at the first error |
| EndpointApplier.CreateAll | core/src/config/applier/endpoint.cc:278-299 | the start loop never drops an entry of the table, and when it ends without an error every pending entry that starts directly is in it |
| EndpointApplier.Applier.Apply | core/src/config/applier/endpoint.cc:249-326 | both diffs are taken first, outputs are created, then inputs, each as specified; an error while creating outputs leaves the inputs untouched and is returned |
| TlsParams.AfterClean | centreon-broker/src/io/tls.cpp:226-242 | cleaning leaves the parameters uninitialised and keeps the mode and flags; it frees the credentials of the current mode (one library call) only when they were initialised |
| TlsParams.AfterInitAnonymous | centreon-broker/src/io/tls.cpp:247-262 | the parameters become anonymous; an allocation failure is raised with its code and leaves them as initialised as before; on success they are initialised; the flags are kept |
| TlsParams.NewIsAnonymous | centreon-broker/src/io/tls.cpp:276-285 | new parameters are anonymous and initialised, with no checking and no compression; a client allocates client credentials, a server allocates server credentials and sets the DH parameters |
| TlsParams.ResetKeepsFlags | centreon-broker/src/io/tls.cpp:388-393 | a successful reset makes the parameters anonymous and initialised again but keeps the checking and compression flags |
| TlsParams.SwitchToCert | centreon-broker/src/io/tls.cpp:412-422 | leaving anonymous mode makes the parameters certificate-based and keeps compression; a successful allocation initialises them with checking off |
| TlsParams.AfterSetCert | centreon-broker/src/io/tls.cpp:407-433 | the parameters become certificate-based; the call succeeds exactly when the allocation (made only from anonymous mode) and the key-file load succeed; from anonymous mode a successful allocation turns checking off; from certificate mode the flags are kept |
| TlsParams.AfterSetTrustedCA | centreon-broker/src/io/tls.cpp:464-486 | in anonymous mode it is the "certificate first" error and nothing changes; otherwise it succeeds exactly when the library loaded at least one CA, and then checking is on |
| TlsParams.CleanIdempotent | centreon-broker/src/io/tls.cpp:226-242 | cleaning a second time changes nothing |
| TlsParams.CheckCertResult | centreon-broker/src/io/tls.cpp:359-380 | without checking the peer is trusted and the library is not asked; a verification failure is raised; otherwise the peer is untrusted exactly when the status is invalid, revoked, signer-not-found or insecure-algorithm |
| TlsParams.MaskedStatus | centreon-broker/src/io/tls.cpp:372-375 | masking the status with the four flags is non-zero exactly when one of them is set |
| TlsParams.Priority | centreon-broker/src/io/tls.cpp:299-303 | as written, compression on selects the priority string without deflate and compression off the one with deflate |
| TlsParams.ApplyResult | centreon-broker/src/io/tls.cpp:292-330 | a priority failure is raised first, then a credentials failure; a session is set up with the priority string chosen by the compression flag, anonymous credentials exactly in anonymous mode, and a required peer certificate exactly in certificate mode |
| TlsParams.Params.constructor | centreon-broker/src/io/tls.cpp:276-283 | the field initialisers: not anonymous, no checking, no compression, not initialised, no library call yet |
| TlsParams.Params.Clean | centreon-broker/src/io/tls.cpp:226-242 | the new state is AfterClean of the old one |
| TlsParams.Params.InitAnonymous | centreon-broker/src/io/tls.cpp:247-262 | the new state and error are AfterInitAnonymous of the old state |
| TlsParams.Params.Reset | centreon-broker/src/io/tls.cpp:388-393 | the new state and error are those of a clean followed by InitAnonymous |
| TlsParams.Params.SetCert | centreon-broker/src/io/tls.cpp:407-433 | the new state and error are AfterSetCert of the old state |
| TlsParams.Params.SetCompression | centreon-broker/src/io/tls.cpp:447-451 | only the compression flag changes |
| TlsParams.Params.SetTrustedCA | centreon-broker/src/io/tls.cpp:464-486 | the new state and error are AfterSetTrustedCA of the old state |
| TlsParams.Params.CheckCert | centreon-broker/src/io/tls.cpp:359-380 | the answer is CheckCertResult of the checking flag and the library's answers |
| TlsParams.Params.Apply | centreon-broker/src/io/tls.cpp:292-330 | the session setup or error is ApplyResult of the current state |
| TlsParams.NewParams | centreon-broker/src/io/tls.cpp:276-285 | construction succeeds exactly when the allocation succeeds, and gives fresh anonymous, initialised parameters |
| TlsParams.SetCertFromAnonymous | centreon-broker/src/io/tls.cpp:407-433 | setting certificates on anonymous parameters makes them certificate-based, unchecked and initialised |
| TlsParams.TrustedCANeedsCert | centreon-broker/src/io/tls.cpp:464-486 | after SetTrustedCA checking is on exactly when it was already on, or a certificate was set and the CA file loaded |
| TlsParams.AfterStreamClose | centreon-broker/src/io/tls.cpp:600-616 | closing a stream ends the session (bye, then deinit) if it has one, then closes the lower stream if it has one, and leaves neither |
| TlsParams.StreamCloseIdempotent | centreon-broker/src/io/tls.cpp:600-616 | a second close does nothing |
| TlsParams.Stream.constructor | centreon-broker/src/io/tls.cpp:580-581 | a stream holds the session and lower stream it is given and has made no call |
| TlsParams.Stream.Close | centreon-broker/src/io/tls.cpp:600-616 | the new state is AfterStreamClose of the old one |
| TlsParams.Acceptor.constructor | centreon-broker/src/io/tls.cpp:725-727 | a new acceptor has no lower acceptor |
| TlsParams.Acceptor.Listen | centreon-broker/src/io/tls.cpp:861-865 | the acceptor now owns a lower acceptor |
| TlsParams.Acceptor.Close | centreon-broker/src/io/tls.cpp:838-847 | the lower acceptor, if any, is closed once and released |
| TlsParams.AcceptorCloseTwice | centreon-broker/src/io/tls.cpp:838-847 | closing a listening acceptor twice closes its lower acceptor exactly once |
| MysqlConnection.ServerError | broker/core/src/mysql_connection.cc:62-70 | an error number means the server is lost exactly when it is CR_SERVER_GONE_ERROR (2006) or CR_SERVER_LOST (2013) |
| MysqlConnection.ExecLoop | broker/core/src/mysql_connection.cc:376-428 | the retry loop makes at least one and at most 10 executions, and a success sets no error |
| MysqlConnection.NonDeadlockRunsOnce | broker/core/src/mysql_connection.cc:385-417 | a first failure that is neither a deadlock (1213) nor a lock wait timeout (1205) ends the loop after one execution, without success |
| MysqlConnection.PersistentDeadlockRunsTenTimes | broker/core/src/mysql_connection.cc:396-417 | a statement that keeps deadlocking, with every commit going through, is executed exactly 10 times and dropped without an error |
| MysqlConnection.DeadlocksThenSuccess | broker/core/src/mysql_connection.cc:379-426 | a success after some deadlocks is a success, with one execution per attempt and no error |
| MysqlConnection.LookupAsWritten | broker/core/src/mysql_connection.cc:446-452 | as written, the lookup of `_statement_res` and `_statement_int` inserts an empty entry when the id was never prepared, and finds a statement exactly when one is prepared |
| MysqlConnection.AfterPrepare | broker/core/src/mysql_connection.cc:320-350 | an id already in the table is refused and changes nothing; otherwise a successful prepare stores the query under the id and a failed one stores nothing |
| MysqlConnection.StatementBeforePrepareBlocksIt | broker/core/src/mysql_connection.cc:441-452 | as written, running statement 1 through `_statement_res` before preparing it leaves an empty entry (the task is popped, since only its promise is rejected), so the prepare that follows finds the id present and refuses it: the statement is never prepared |
| MysqlConnection.Lookup | broker/core/src/mysql_connection.cc:354-360 | the corrected lookup finds a statement exactly when one is prepared under the id, and changes nothing |
| MysqlConnection.StatementBeforePrepareThenPrepares | broker/core/src/mysql_connection.cc:320-360 | with the corrected lookup, an id not yet prepared is reported missing and can still be prepared afterwards |
| MysqlConnection.CommitLoop | broker/core/src/mysql_connection.cc:284-292 | a final return code of 0 sets no error, and an error is set only for a server error |
| MysqlConnection.CommitEventuallySucceeds | broker/core/src/mysql_connection.cc:284-310 | a commit that succeeds within 10 attempts, after failures that are not server errors, succeeds without error |
| MysqlConnection.PrepareEffect | broker/core/src/mysql_connection.cc:320-350 | on the connection state, the statement table becomes AfterPrepare of the old one, a failed prepare of a new id sets the prepare error, and the commit fields are kept |
| MysqlConnection.StatementEffect | broker/core/src/mysql_connection.cc:352-439 | the statement table and commit times are kept, an error is never cleared, an unprepared id sets the "not prepared" error, and a commit becomes needed exactly when it was already or an execution of a prepared, bound statement succeeded |
| MysqlConnection.CommitEffect | broker/core/src/mysql_connection.cc:275-318 | the statement table is kept and an error never cleared; with at most one query per transaction nothing changes; otherwise a commit stays needed exactly when one was pending and the commit loop ended on a failure, the commit time is recorded exactly when none stays needed, and the only error that can appear is the commit loop's |
| MysqlConnection.RunTask | broker/core/src/mysql_connection.cc:800-814 | a task of a type outside the processing table changes nothing; no task clears an error; only a prepare task adds a statement, under its own id |
| MysqlConnection.Handle | broker/core/src/mysql_connection.cc:32-46 | the handler the processing table selects for a task type never clears an error, and only a prepare adds a statement, under its own id |
| MysqlConnection.Drain | broker/core/src/mysql_connection.cc:797-823 | at most the queued tasks are popped; on a non-empty batch, tasks remain exactly when an error is set at the end; an empty batch changes nothing |
| MysqlConnection.DrainWhileErrorActive | broker/core/src/mysql_connection.cc:797-823 | with an error already active, the front task still runs and nothing is popped |
| MysqlConnection.DrainStopsAtError | broker/core/src/mysql_connection.cc:797-823 | the tasks popped drain without error, and when a task remains the final state is that task run on the state they leave, with an error set |
| MysqlConnection.DrainAddsOnlyPrepared | broker/core/src/mysql_connection.cc:797-823 | draining a batch adds statements only under the ids of its prepare tasks |
| MysqlConnection.PrepareThenStatement | broker/core/src/mysql_connection.cc:320-439 | with the corrected lookup, a batch that prepares statement id and then executes it, both accepted, pops both tasks, stores the query under the id and marks a commit as needed, with no error |
| MysqlConnection.Connection.constructor | broker/core/src/mysql_connection.cc:880-899 | a connection keeps the configuration's host, socket, user, password, name, port, queries per transaction and commit delay; its last commit time is 0 with more than one query per transaction and the largest 64-bit time otherwise; it needs no commit, has no error, no statement and no task |
| MysqlConnection.Connection.MatchConfig | broker/core/src/mysql_connection.cc:1016-1021 | a configuration matches exactly when every connection parameter agrees, the commit delay aside |
| MysqlConnection.Connection.Prepare | broker/core/src/mysql_connection.cc:320-350 | the statement table becomes AfterPrepare of the old one; a failed prepare of a new id sets the prepare error; nothing else changes |
| MysqlConnection.Connection.Statement | broker/core/src/mysql_connection.cc:352-439 | an unprepared id sets the "not prepared" error without executing; a failed binding is only logged; otherwise the executions and error are those of the retry loop, and a success marks a commit as needed |
| MysqlConnection.Connection.Commit | broker/core/src/mysql_connection.cc:275-318 | with at most one query per transaction nothing changes; with nothing pending the commit counts as a success; otherwise the commit loop decides the error, and a success clears the pending flag and records the commit time; a task is always resolved with true |
| MysqlConnection.Connection.RunTaskOnce | broker/core/src/mysql_connection.cc:800-814 | the connection state becomes RunTask of the old one: the handler of the task's type from the processing table (prepare, statement and commit as above), then the delayed commit; the task list, counter and finishing flags are kept |
| MysqlConnection.Connection.RunFront | broker/core/src/mysql_connection.cc:800-821 | one turn of the loop: the front task runs; it is popped and the access time renewed exactly when it leaves no error, otherwise the queue is kept; the counter goes down by one |
| MysqlConnection.Connection.ProcessTasks | broker/core/src/mysql_connection.cc:797-823 | the new connection state is Drain of the old state over the old task list, the tasks left are the old ones after the popped prefix, and the task counter goes down once per task run; the finishing flags are kept |
| MysqlConnection.Connection.Push | broker/core/src/mysql_connection.cc:936-945 | a task is refused once finishing was asked or the connection is finished; otherwise it is appended and counted |
| MysqlConnection.Connection.Finish | broker/core/src/mysql_connection.cc:1003-1007 | finishing is asked and the task list is kept |
| ObjectUtils.Node.constructor | inc/com/centreon/engine/objects/utils.hh:34 | a new node has its id and no successor |
| ObjectUtils.ObjectList.constructor | inc/com/centreon/engine/objects/utils.hh:34 | an empty list has null head and tail pointers and no node |
| ObjectUtils.ObjectList.Remove | inc/com/centreon/engine/objects/utils.hh:33-50 | the list stays well linked (head, tail and links through the remaining nodes); when the object is in the list exactly its first occurrence is unlinked and the others keep their order; otherwise head, tail and every link are unchanged |
| ObjectUtils.BeforeNullIsPrefix | inc/com/centreon/engine/objects/utils.hh:52-65 | the copy is the run of elements at the front of the array, and it stops at the first NULL |
| ObjectUtils.Tab2Vec | inc/com/centreon/engine/objects/utils.hh:52-65 | both forms of tab2vec return exactly the elements before the first NULL, in order |
| TimeperiodUtils.HmtosRoundTrip | centreon-engine/tests/timeperiod/utils.cc:102-104 | a time of day becomes a second count within the day that gives back its hour and minute and is a whole minute |
| TimeperiodUtils.Hmtos | centreon-engine/tests/timeperiod/utils.cc:102-104 | an hour and a minute give a whole number of minutes in seconds, never negative for a non-negative time |
| TimeperiodUtils.HmtosMonotone | centreon-engine/tests/timeperiod/utils.cc:102-104 | a later time of day gives a larger second count |
| TimeperiodUtils.Timeperiod.constructor | centreon-engine/tests/timeperiod/utils.cc:61-62 | a new time period is zeroed: no successor and no range |
| TimeperiodUtils.TimeperiodCreator.constructor | centreon-engine/tests/timeperiod/utils.cc:33 | a new creator holds no time period |
| TimeperiodUtils.TimeperiodCreator.GetTimeperiods | centreon-engine/tests/timeperiod/utils.cc:51-53 | the head is null exactly when nothing was created, and otherwise the most recently created time period |
| TimeperiodUtils.TimeperiodCreator.NewTimeperiod | centreon-engine/tests/timeperiod/utils.cc:60-66 | a fresh, empty time period is pushed in front of the list and linked to the previous head |
| TimeperiodUtils.TimeperiodCreator.NewTimerange | centreon-engine/tests/timeperiod/utils.cc:77-92 | the range, converted to seconds, is added to the target, or to the most recent time period when the target is null; its link is not changed and the list of periods stays as it was |
| TimeperiodUtils.TimeperiodCreator.Destroy | centreon-engine/tests/timeperiod/utils.cc:38-44 | every created time period is released once, from the head along the links, and the list ends empty |
| TimeperiodUtils.TimeCell.constructor | centreon-engine/tests/timeperiod/utils.cc:143-147 | the cell a caller passes to time starts at 0 |
| TimeperiodUtils.Clock.constructor | centreon-engine/tests/timeperiod/utils.cc:28 | the overridden clock reads -1 until it is set |
| TimeperiodUtils.Clock.SetTime | centreon-engine/tests/timeperiod/utils.cc:114-117 | the clock now reads the given time |
| TimeperiodUtils.Clock.Time | centreon-engine/tests/timeperiod/utils.cc:143-147 | time answers the set time and also stores it through a non-null argument |
| TimeperiodUtils.SetThenTime | centreon-engine/tests/timeperiod/utils.cc:114-147 | after set_time(t), time answers t and writes t through its argument |
| TimeperiodUtils.CreatorScenario | centreon-engine/tests/timeperiod/utils.cc:60-92 | after two creations and a range 8:00-18:00 with no target, the range (28800 to 64800 seconds) is in the second time period only, and the list holds the second before the first |
| FindInLog.LocateStart | centreon-tests/resources/Common.py:60-71 | the bisection gives 0 for at most two lines and otherwise a line strictly inside the log; on sorted dates every probed-range line before it is dated before the searched date and every one after it at or after that date |
| FindInLog.FindOne | centreon-tests/resources/Common.py:74-80 | the inner loop finds the string exactly when some line from the start line on contains it |
| FindInLog.FindAll | centreon-tests/resources/Common.py:73-85 | the search succeeds exactly when every expected string is in some line from the start line on |
| FindInLog.Find | centreon-tests/resources/Common.py:53-88 | a log that cannot be opened gives false; otherwise the answer is true exactly when every expected string appears from the start line the bisection picked, with that line placed as LocateStart states |
| FindInLog.EmptyContentFound | centreon-tests/resources/Common.py:73-85 | with nothing expected the search succeeds as soon as the file opens |
| FindInLog.MoreContentHarder | centreon-tests/resources/Common.py:73-85 | expecting more strings can only make the search fail more often |
| FindInLog.LaterStartHarder | centreon-tests/resources/Common.py:73-85 | starting later can only make the search fail more often |
| FindInLog.FirstLineSkipped | centreon-tests/resources/Common.py:60-71 | with three lines all dated after the searched date, the search starts at line 1, so line 0 is never searched |
| Acceptance.ReplaceAllAbsent | centreon-build/script/acceptance.php:11 | str_replace leaves a text without the token as it is |
| Acceptance.ReplacedStartsWithTo | centreon-build/script/acceptance.php:11 | a text that starts with the token starts, once replaced, with the replacement |
| Acceptance.UnreplacedPrefix | centreon-build/script/acceptance.php:11 | a prefix of the result that holds no character of the replacement is also a prefix of the input |
| Acceptance.UnreplacedSegment | centreon-build/script/acceptance.php:11 | a stretch of the result that holds no character of the replacement also occurs in the input |
| Acceptance.SegmentAfterMatch | centreon-build/script/acceptance.php:11 | the same, for a text that starts with the token |
| Acceptance.SegmentAfterChar | centreon-build/script/acceptance.php:11 | the same, for a text that starts with a character that does not begin the token |
| Acceptance.ReplaceAllRemoves | centreon-build/script/acceptance.php:11 | replacing a token with text that shares no character with it leaves no occurrence of the token |
| Acceptance.ReplaceAllKeepsAbsent | centreon-build/script/acceptance.php:11 | replacing with text that shares no character with another token never makes that token appear |
| Acceptance.ReplaceEachRemovesAll | centreon-build/script/acceptance.php:10-12 | when no token shares a character with any replacement, applying the pairs in order leaves none of the tokens in the result, whatever the input held |
| Acceptance.AbsentStays | centreon-build/script/acceptance.php:10-12 | once the first token is gone, the pairs applied after it cannot bring it back |
| Acceptance.ReplaceInFile | centreon-build/script/acceptance.php:8-16 | the text written is the input with the pairs applied in order, and the function always reports success |
| Acceptance.ReplaceAll | centreon-build/script/acceptance.php:11 | `str_replace` of one pair keeps the length when the replacement is as long as the token; ReplaceAllAbsent and ReplaceAllRemoves give what it leaves |
| Acceptance.ReplaceEach | centreon-build/script/acceptance.php:10-12 | the pairs applied in order keep the length when every replacement is as long as its token; ReplaceEachRemovesAll shows no token is left |
| Acceptance.GetProjectFiles | centreon-build/script/acceptance.php:18-59 | exactly the five projects web, lm, ppm, middleware and ppe have a descriptor; its compose output is mon-<name>-dev.yml and its build script mon-containers-<name>-dev.php; every project but middleware replaces @WEB_IMAGE@ with mon-<name>-dev:<distrib>; lm, ppm and ppe then replace @MIDDLEWARE_IMAGE@ with the registry image; web replaces only the first; middleware replaces only @MIDDLEWARE_IMAGE@ with mon-middleware-dev:<distrib> |
| Acceptance.TokenPairsSeparated | centreon-build/script/acceptance.php:18-59 | replacement lists for the two image tokens whose texts avoid the tokens' characters are separated, so ReplaceEachRemovesAll applies |
| Acceptance.ProjectTextsTokenFree | centreon-build/script/acceptance.php:18-59 | for a distribution name made of lower-case letters and digits, every replacement text of a project replaces an image token and contains no '@', '_' or capital |
| Acceptance.ComposeHasNoTokens | centreon-build/script/acceptance.php:156-161 | for such a distribution name, the compose file written for a supported project holds no image token, whatever the template |
| Acceptance.ProjectAlias | centreon-build/script/acceptance.php:127-149 | a directory name outside the ten aliases is kept as the project name, and an alias maps to a supported project |
| Acceptance.AliasSupported | centreon-build/script/acceptance.php:127-154 | a directory is supported exactly when its name is an alias or already a project identifier |
| Acceptance.AliasIdempotent | centreon-build/script/acceptance.php:127-149 | mapping a name twice gives the same project as mapping it once |
| Acceptance.RemainingArgs | centreon-build/script/acceptance.php:73-114 | shifting the script name and the options never lengthens the arguments |
| Acceptance.Distrib | centreon-build/script/acceptance.php:100-107 | the distribution is centos6 unless -d gives one |
| Acceptance.Features | centreon-build/script/acceptance.php:175-177 | there is always at least one feature to run, and given arguments are the features |
| Acceptance.RunFeatures | centreon-build/script/acceptance.php:173-181 | the runner is invoked once per feature, in order, with "<cmd> <feature>", whatever each run returns |
| Acceptance.Run | centreon-build/script/acceptance.php:72-183 | -h prints the usage and returns 0; a missing or empty GitHub token returns 1; an unsupported project returns 1 before writing anything; otherwise the run is the project run below |
| Acceptance.RunProject | centreon-build/script/acceptance.php:156-181 | the compose file is written with the replacements, the build command is "php <dev script> <distrib>"; a failed build returns 1 and its message; after a successful build the status is 0, and unless -g was given one test command per feature is run |
| Acceptance.ProjectRun | centreon-build/script/acceptance.php:156-181 | a run that matches the project steps always wrote the compose file, issued the build command, and returns 0 or 1 |
| ConfigObject.TypeId | centreon-engine/inc/com/centreon/engine/configuration/object.hh:39-55 | every object type has a number below fifteen |
| ConfigObject.TypeOfId | centreon-engine/inc/com/centreon/engine/configuration/object.hh:39-55 | a number names a type exactly when it is below fifteen |
| ConfigObject.TypeIdRoundTrip | centreon-engine/inc/com/centreon/engine/configuration/object.hh:39-55 | the numbering is a bijection between the fifteen types and 0..14, in both directions |
| ConfigObject.ParseWhole | centreon-engine/inc/com/centreon/engine/configuration/object.hh:88-89 | a typed read succeeds exactly when the extraction succeeds and leaves nothing over, and then yields the extracted value |
| ConfigObject.Generic | centreon-engine/inc/com/centreon/engine/configuration/object.hh:86-92 | the setter is called on the parsed value only when the whole text parsed; otherwise the object is unchanged and the result is false |
| ConfigObject.GenericString | centreon-engine/inc/com/centreon/engine/configuration/object.hh:95-100 | the string setter receives the text unchanged |
| ConfigObject.SkipSpace | centreon-engine/inc/com/centreon/engine/configuration/object.hh:88-89 | the whitespace skipped before a number is all blank and stops at the first non-blank |
| ConfigObject.DigitRun | centreon-engine/inc/com/centreon/engine/configuration/object.hh:88-89 | the digit run read is all digits and stops at the first non-digit |
| ConfigObject.ExtractNat | centreon-engine/inc/com/centreon/engine/configuration/object.hh:88-89 | a number can be read exactly when the first non-blank character is a digit |
| ConfigObject.NatWholeIff | centreon-engine/inc/com/centreon/engine/configuration/object.hh:86-92 | a number setter accepts a text exactly when it is optional blanks then digits to the end, and the value is those digits' decimal value |
| ConfigObject.TrailingTextRejected | centreon-engine/inc/com/centreon/engine/configuration/object.hh:89 | a trailing blank after the number makes the setter refuse the text |
| ConfigObject.PrintedNatAccepted | centreon-engine/inc/com/centreon/engine/configuration/object.hh:86-92 | a number written in decimal is read back as itself |
| ConfigObject.MergeDefault | centreon-engine/inc/com/centreon/engine/configuration/object.hh:136-141 | an empty property takes the template's value; a set one is kept |
| ConfigObject.MergeImportant | centreon-engine/inc/com/centreon/engine/configuration/object.hh:138-139 | an important template value wins even over a set property; otherwise the default rule applies |
| ConfigObject.MergeMap | centreon-engine/inc/com/centreon/engine/configuration/object.hh:142-143 | the merged map has the keys of both, the object's own entries win, and template entries fill the missing keys |
| ConfigObject.MergeOption | centreon-engine/inc/com/centreon/engine/configuration/object.hh:144-152 | a given option stays; otherwise the template's given option is taken; otherwise the default, which marks the option as given |
| ConfigObject.MergeIdempotent | centreon-engine/inc/com/centreon/engine/configuration/object.hh:129-152 | merging twice with the same template gives the same as merging once, for each of the merge rules |
| ConfigObject.MergedOptionIsSet | centreon-engine/inc/com/centreon/engine/configuration/object.hh:144-152 | after an option merge the option is always given |
| ConfigObject.AddressMerged | centreon-engine/inc/com/centreon/engine/configuration/object.hh:129-135 | the merged address array has the object's length and each slot follows the default rule against the template's slot |
| ConfigObject.AddressMergeFills | centreon-engine/inc/com/centreon/engine/configuration/object.hh:129-135 | a merged slot is empty only when both slots were, and a second merge changes nothing |
| ConfigObject.MergeAddress | centreon-engine/inc/com/centreon/engine/configuration/object.hh:129-135 | the in-place loop leaves the array equal to the slot-by-slot merge of its old contents with the template |
| ObjectParser.StoreByEnumMatchesTypes | centreon-engine/src/configuration/parser.cc:29-45 | with the table ordered as the object-type enumeration, each type is kept in a map exactly when the state copies it from a map, keyed by its own name property |
| ObjectParser.StoreAsWrittenMismatch | centreon-engine/src/configuration/parser.cc:29-45 | the table as written keeps a service in a map keyed by servicegroup_name, a host group in a list, a host under hostgroup_name and a contact under contactgroup_name |
| ObjectParser.StoreAsWrittenLosesTypes | centreon-engine/src/configuration/parser.cc:29-45 | against where parse reads each type back, the table as written puts host dependencies (slot 4) and services (slot 13) in a map slot and host groups (slot 7) and service groups (slot 12) in a list slot; every other type is on the side it is read from |
| ObjectParser.EmptyTables | centreon-engine/src/configuration/parser.cc:109-115 | the emptied tables still have one slot per type |
| ObjectParser.AddTemplateSpec | centreon-engine/src/configuration/parser.cc:139-155 | a non-template changes nothing; a template fails exactly when its name is empty or already registered for its type, and otherwise is recorded under its name with nothing else changed |
| ObjectParser.StoreSpec | centreon-engine/src/configuration/parser.cc:560-579 | a list slot appends the object; a map slot fails exactly when the object's key is already present, and otherwise maps the key to the object; templates are never touched |
| ObjectParser.AddObjectSpec | centreon-engine/src/configuration/parser.cc:123-132 | a template changes nothing, an object with identity 0 is refused, any other object is stored by its slot's rule |
| ObjectParser.TemplateTwiceFails | centreon-engine/src/configuration/parser.cc:150-153 | registering the same template name twice for one type fails |
| ObjectParser.SameKeyTwiceFails | centreon-engine/src/configuration/parser.cc:570-578 | a second object with the same key in a map slot is refused as already existing |
| ObjectParser.ServiceKeptByEnum | centreon-engine/src/configuration/parser.cc:94-106 | with the table in enumeration order, adding a service succeeds and the service reaches the state's services |
| ObjectParser.Fill | centreon-engine/src/configuration/parser.cc:94-106 | the state's host dependencies and services are the objects of their list slots, and its hosts, host groups and service groups the objects of their map slots |
| ObjectParser.ServiceLostAsWritten | centreon-engine/src/configuration/parser.cc:29-45 | with the table as written, a service that is stored never reaches the state's services, which are read from the list slot |
| ObjectParser.HostsCollideAsWritten | centreon-engine/src/configuration/parser.cc:29-45 | with the table as written, and the typed cast of `_store_into_map` abstracted as reading the named property, two hosts without a host group name collide as "already exist", whatever their host names; in the source the cast to hostgroup is undefined behaviour |
| ObjectParser.TrimLeft | centreon-engine/src/configuration/parser.cc:442 | the result is a suffix of the input that does not start with a blank |
| ObjectParser.TrimRight | centreon-engine/src/configuration/parser.cc:449 | the result is a prefix of the input that does not end with a blank |
| ObjectParser.TypeOfName | centreon-engine/src/configuration/parser.cc:450 | a recognised type name is the name of the type returned |
| ObjectParser.TypeOfNameComplete | centreon-engine/src/configuration/parser.cc:450-455 | every one of the fifteen type names is recognised |
| ObjectParser.OpeningName | centreon-engine/src/configuration/parser.cc:437-449 | an opening line is one that starts with "define" and a blank and ends with '{'; any other line yields no type name |
| ObjectParser.DefinedType | centreon-engine/src/configuration/parser.cc:437-455 | a line without "define" and a blank at index 6, or not ending with '{', is an unexpected-start error; a type is returned only for a well-formed opening line |
| ObjectParser.StepLine | centreon-engine/src/configuration/parser.cc:436-477 | one line of the state machine keeps one table slot per type; its behaviour is stated by OpeningStep, SkippedCloseStep and the lemmas below |
| ObjectParser.ParseAll | centreon-engine/src/configuration/parser.cc:434-478 | reading a file line by line keeps one table slot per type and stops at the first error |
| ObjectParser.SkippedBodyChangesNothing | centreon-engine/src/configuration/parser.cc:459-467 | the body lines of a block whose type is not selected leave the reading state exactly as it was |
| ObjectParser.OpeningStep | centreon-engine/src/configuration/parser.cc:436-457 | outside a block, an opening line opens a fresh object of its type and selects it exactly when the type's bit is set in the read options |
| ObjectParser.SkippedCloseStep | centreon-engine/src/configuration/parser.cc:469-476 | the closing line of an unselected block only clears the current object |
| ObjectParser.SkippedBlock | centreon-engine/src/configuration/parser.cc:436-477 | a whole block whose type is not selected raises no error and leaves the tables unchanged |
| ObjectParser.ParseAllAppend | centreon-engine/src/configuration/parser.cc:434-478 | reading a concatenation is reading the second part from where the first stopped, unless the first part failed |
| ObjectParser.OpenBlockKeepsTables | centreon-engine/src/configuration/parser.cc:459-467 | inside an open block, lines other than the closing brace never change the tables |
| ObjectParser.UnterminatedBlockDropped | centreon-engine/src/configuration/parser.cc:434-478 | a block left open at the end of the file registers nothing |
| ObjectParser.StrayLineFails | centreon-engine/src/configuration/parser.cc:436-441 | outside a block, a line that does not start with "define" and a blank stops the reading with the unexpected-start error and no change |
| ObjectParser.NamedObjectsExact | centreon-engine/src/configuration/parser.cc:296-310 | the names known to the map contribute their objects, unknown names are skipped, and when every name is known there is one object per name |
| ObjectParser.NamedObjects | centreon-engine/src/configuration/parser.cc:296-310 | at most one object per name, each an object of the map |
| ObjectParser.GetObjectsByListName | centreon-engine/src/configuration/parser.cc:296-310 | the loop appends to the output exactly the named objects, in the order of the names |
| ObjectParser.HostsOfGroupsAreHosts | centreon-engine/src/configuration/parser.cc:260-287 | everything collected through host groups is a known host |
| ObjectParser.HostsOfGroups | centreon-engine/src/configuration/parser.cc:260-287 | group names none of which is a known host group contribute no host |
| ObjectParser.DirectMembersCollected | centreon-engine/src/configuration/parser.cc:260-265 | every known member host of a known group is collected |
| ObjectParser.GetHostsByHostgroupsName | centreon-engine/src/configuration/parser.cc:273-287 | the loop over group names appends exactly the hosts the recursive collection defines |
| ObjectParser.GetHostsByHostgroups | centreon-engine/src/configuration/parser.cc:260-265 | a group contributes its member hosts, then the hosts of its member groups |
| ObjectParser.Parser.constructor | centreon-engine/src/configuration/parser.cc:53-57 | a new parser holds its read options and store table and empty tables |
| ObjectParser.Parser.AddTemplate | centreon-engine/src/configuration/parser.cc:139-155 | the tables become AddTemplateSpec's result, or stay as they were with its error reported |
| ObjectParser.Parser.AddObject | centreon-engine/src/configuration/parser.cc:123-132 | the tables become AddObjectSpec's result, or stay as they were with its error reported |
| ObjectParser.Parser.ParseLine | centreon-engine/src/configuration/parser.cc:435-477 | one loop step moves the tables, the open object and the read flag exactly as StepLine says, or reports its error with the tables unchanged |
| ObjectParser.Parser.ParseObjectDefinitions | centreon-engine/src/configuration/parser.cc:422-479 | the loop over the file's lines leaves the tables and the error exactly as ParseAll defines them |
| ObjectParser.Parser.Cleanup | centreon-engine/src/configuration/parser.cc:109-115 | every slot of every table is empty afterwards |
| ServicedependencyApplier.FlagsOf | src/cce_core/configuration/applier/servicedependency.cc:97-106 | each failure flag is raised exactly when its option bit is set |
| ServicedependencyApplier.NoOptionsNoFlags | src/cce_core/configuration/applier/servicedependency.cc:97-106 | with no option bit set, no failure flag is raised |
| ServicedependencyApplier.Created | src/cce_core/configuration/applier/servicedependency.cc:87-127 | the engine dependency links the single dependent host and service to the single depended host and service, keeps inheritance and period, and takes its kind and flags from the execution or the notification options as the type says |
| ServicedependencyApplier.OtherOptionsIgnored | src/cce_core/configuration/applier/servicedependency.cc:87-127 | the options of the other kind never influence the engine dependency |
| ServicedependencyApplier.AddCheck | src/cce_core/configuration/applier/servicedependency.cc:52-72 | a dependency is accepted exactly when it is one-to-one and of a known kind; one that is not one-to-one is refused with the "multiple" message |
| ServicedependencyApplier.Find | src/cce_core/configuration/applier/servicedependency.cc:261-262 | the lookup finds the first entry made from the dependency, or reports that there is none |
| ServicedependencyApplier.Applier.constructor | src/cce_core/configuration/applier/servicedependency.cc:36 | the applier starts with no configured dependency, no engine entry and no event |
| ServicedependencyApplier.Applier.AddObject | src/cce_core/configuration/applier/servicedependency.cc:49-138 | a refused dependency changes nothing; an accepted one joins the configuration set, its engine dependency is appended to the table, and an add event is sent |
| ServicedependencyApplier.Applier.ModifyObject | src/cce_core/configuration/applier/servicedependency.cc:239-246 | modification is always refused, with the fixed message |
| ServicedependencyApplier.Applier.RemoveObject | src/cce_core/configuration/applier/servicedependency.cc:254-278 | the dependency leaves the configuration set; if an engine entry was made from it, the first such entry is erased and a delete event is sent, otherwise the table and events are unchanged |
| ServicedependencyApplier.Applier.ResolveObject | src/cce_core/configuration/applier/servicedependency.cc:285-299 | resolving fails, with the fixed message, exactly when no engine entry was made from the dependency |
| ServicedependencyApplier.AddThenRemove | src/cce_core/configuration/applier/servicedependency.cc:254-278 | adding an accepted dependency and then removing it leaves the engine table as it was |
| ServicedependencyApplier.FirstMissing | src/cce_core/configuration/applier/servicedependency.cc:325-356 | no name is reported exactly when every name is known, and a reported name is an unknown one from the list |
| ServicedependencyApplier.ExpandServicesMembers | src/cce_core/configuration/applier/servicedependency.cc:311-365 | a pair is in the expansion exactly when its host is listed or in a named host group and its service is listed, or it is a member of a named service group |
| ServicedependencyApplier.UnknownHostgroupFails | src/cce_core/configuration/applier/servicedependency.cc:329-331 | an unknown host group makes the expansion fail |
| ServicedependencyApplier.AddHostServices | src/cce_core/configuration/applier/servicedependency.cc:342-346 | the inner loop adds the host paired with every listed service description |
| ServicedependencyApplier.CollectHosts | src/cce_core/configuration/applier/servicedependency.cc:319-335 | the host set is the listed hosts plus the members of the named groups, and the failing group is the first unknown one |
| ServicedependencyApplier.CollectGroupServices | src/cce_core/configuration/applier/servicedependency.cc:349-364 | the loop adds every member of the named service groups, and the failing group is the first unknown one |
| ServicedependencyApplier.ExpandServices | src/cce_core/configuration/applier/servicedependency.cc:311-365 | the method computes exactly the expansion ExpandServicesMembers characterises, or its error |
| ServicedependencyApplier.ExpandServicesSpec | src/cce_core/configuration/applier/servicedependency.cc:311-365 | the expansion succeeds exactly when every host group and every service group is known; ExpandServicesMembers gives its pairs |
| ServicedependencyApplier.Instance | src/cce_core/configuration/applier/servicedependency.cc:194-215 | an instance is one-to-one over the given pairs, keeps inheritance and period, and is an execution dependency without notification options or a notification dependency without execution options |
| ServicedependencyApplier.ExpandOneIsOneToOne | src/cce_core/configuration/applier/servicedependency.cc:217-219 | every expanded dependency is one-to-one and of a known kind, so it needs no further expansion |
| ServicedependencyApplier.ExpandOneBothKinds | src/cce_core/configuration/applier/servicedependency.cc:182-220 | every pair of expanded depended and dependent services gives both an execution and a notification dependency |
| ServicedependencyApplier.CollectAccepted | src/cce_core/configuration/applier/servicedependency.cc:145-229 | after expansion every dependency in the state is accepted by add_object |
| ServicedependencyApplier.CollectKeeps | src/cce_core/configuration/applier/servicedependency.cc:222-224 | a dependency that is already one-to-one and of a known kind is kept unchanged |
| ServicedependencyApplier.CollectIdempotent | src/cce_core/configuration/applier/servicedependency.cc:145-229 | expanding an already expanded set changes nothing |
| ServicedependencyApplier.Collect | src/cce_core/configuration/applier/servicedependency.cc:145-229 | every dependency the expansion leaves is one-to-one; CollectKeeps, CollectAccepted and CollectIdempotent state the rest |
| ServicedependencyApplier.CollectAdd | src/cce_core/configuration/applier/servicedependency.cc:148-225 | the expansion of a set grows by one dependency's expansion when that dependency is added |
| ServicedependencyApplier.ExpandObjects | src/cce_core/configuration/applier/servicedependency.cc:145-229 | on success the state holds the expansion of all its dependencies; it fails exactly when some dependency's expansion fails, and then the state is unchanged and the error is that dependency's |
| ServicedependencyApplier.ExpandDependency | src/cce_core/configuration/applier/servicedependency.cc:154-224 | the loop body computes exactly one dependency's expansion |
| ServicedependencyApplier.ExpandOne | src/cce_core/configuration/applier/servicedependency.cc:154-224 | only a dependency that needs expanding can fail; ExpandOneBothKinds and ExpandOneIsOneToOne give its instances |
| ServicedependencyApplier.InstancesOf | src/cce_core/configuration/applier/servicedependency.cc:182-220 | the nested loops produce exactly both kinds for every pair of depended and dependent services |
| ConfigState.TrimEnd | src/configuration/state.cc:2610-2617 | the result is a prefix of the input that does not end with a blank |
| ConfigState.TrimEndDropsBlanks | src/configuration/state.cc:2611-2617 | every character dropped from the end is a blank |
| ConfigState.TrimStart | src/configuration/state.cc:2618-2619 | the result is a suffix of the input that does not start with a blank |
| ConfigState.TrimStartDropsBlanks | src/configuration/state.cc:2618-2619 | every character dropped from the start is a blank |
| ConfigState.Trim | src/configuration/state.cc:2609-2622 | the result is a slice of the input with no blank at either end |
| ConfigState.TrimEmptyIff | src/configuration/state.cc:2611-2614 | a string trims to nothing exactly when it is all blanks |
| ConfigState.TrimIdempotent | src/configuration/state.cc:2609-2622 | trimming twice is trimming once |
| ConfigState.NextLineWith | src/configuration/state.cc:2582-2600 | reading from a position inside the input always moves forward and stays within it; at the end of the input the line is empty |
| ConfigState.ContinueStep | src/configuration/state.cc:2590-2592 | a physical line ending in a single backslash is appended, cut at its end, and reading goes on with the next line |
| ConfigState.FinalStep | src/configuration/state.cc:2594-2597 | a physical line not ending in a backslash ends the logical line: the trimmed text read so far followed by this line |
| ConfigState.EmptyStep | src/configuration/state.cc:2587-2588 | an empty physical line gives the empty line and drops what was read |
| ConfigState.BackslashEndStep | src/configuration/state.cc:2594-2597 | a line that is one backslash or ends in two loses its last backslash and ends the logical line |
| ConfigState.ContinuationLosesCharacterAsWritten | src/configuration/state.cc:2590-2591 | as written, a continued line loses the character before its backslash: x, c and a backslash, then y, reads as x followed by y |
| ConfigState.ContinuationExampleAsWritten | src/configuration/state.cc:2590-2591 | as written, "a=12" with a backslash continued by "3" reads as "a=13" |
| ConfigState.ContinuationJoins | src/configuration/state.cc:2590-2597 | with the intended cut, a continued line is its text without the backslash followed by the next line |
| ConfigState.PlainLineRead | src/configuration/state.cc:2594-2597 | a line not ending in a backslash is read as it is, and reading resumes after it |
| ConfigState.GetLine | src/configuration/state.cc:2582-2600 | the loop over physical lines returns exactly the logical line and resume position NextLine defines |
| ConfigState.NextLine | src/configuration/state.cc:2582-2600 | the logical line starting at a position always moves past it and stays within the file; at the end it is empty; the lemmas ContinueStep, FinalStep and ContinuationJoins state the joining |
| ConfigState.ParseU32 | src/configuration/state.cc:2360 | a converted unsigned value fits in 32 bits and is the decimal value of the whole text |
| ConfigState.ParseI32 | src/configuration/state.cc:1274 | a converted int lies in the 32-bit signed range and is the decimal value of the text, negated after a leading '-' |
| ConfigState.Minimum | src/configuration/state.cc:1292-1566 | every checked setter refuses at least 0 |
| ConfigState.SetChecked | src/configuration/state.cc:1292-1566 | a value below the setting's minimum is refused with "<name>: invalid value" and nothing is stored; otherwise the value is stored and nothing else changes |
| ConfigState.SetDebugLevel | src/configuration/state.cc:1199-1208 | UINT_MAX, and only UINT_MAX, selects every level; any other value is stored as the mask; nothing else changes |
| ConfigState.ToULong | src/configuration/state.cc:2359 | an `int` widened to `unsigned long`: non-negative values are kept, negative ones wrap to 2^64 plus the value |
| ConfigState.ApplyDebugLevel | src/configuration/state.cc:2359 | debug_level is read as an `int` and widened: a text that is not an `int` leaves the configuration unchanged, otherwise only the level changes, to the widened value |
| ConfigState.DebugLevelNeverAllFromFile | src/configuration/state.cc:1199-1208 | read through an `int`, no text of the file selects every level; "-1" gives the 64-bit mask of all ones |
| ConfigState.SetDebugVerbosity | src/configuration/state.cc:1214-1223 | the verbosity never exceeds "most"; a value up to it is kept, a larger one becomes "most"; nothing else changes |
| ConfigState.SetCommandCheckInterval | src/configuration/state.cc:1229-1244 | the engine's global always receives the raw value; values below -1 and 0 are refused after the raw value was stored; an accepted value not in seconds and not -1 is multiplied by interval_length, modulo 2^32 |
| ConfigState.SetCommandCheckIntervalText | src/configuration/state.cc:1262-1276 | only the seconds flag and the command check interval can change |
| ConfigState.CommandCheckIntervalSeconds | src/configuration/state.cc:1269-1274 | a number with a trailing 's' is accepted, marks seconds, and is stored unscaled |
| ConfigState.CommandCheckIntervalUnits | src/configuration/state.cc:1239-1274 | a number without a unit is accepted, marks interval lengths, and is stored multiplied by interval_length |
| ConfigState.SetIntervalLength | src/configuration/state.cc:1354-1370 | 0 is refused with no change; otherwise the length is stored, stays usable, and an interval counted in lengths is divided by the old length and multiplied by the new one |
| ConfigState.IntervalLengthRescales | src/configuration/state.cc:1354-1370 | a command check interval of n lengths, followed by a new interval length, ends as n times the new length |
| ConfigState.DateFormatOf | src/configuration/state.cc:2199-2214 | "euro", "iso8601" and "strict-iso8601", each exactly, select their format; every other text selects us |
| ConfigState.DateFormatRoundTrip | src/configuration/state.cc:2199-2214 | each format's name selects that format |
| ConfigState.SetInterCheckDelay | src/configuration/state.cc:2242-2297 | only the chosen side's method and delay change; "n", "d" and "s" select their method; any other text selects the user method and is refused exactly when it is not a positive number |
| ConfigState.SetInterleave | src/configuration/state.cc:2313-2327 | "s", and only "s", selects smart; any other text selects user with a factor of at least 1, the text's value when that is a number of at least 1 |
| ConfigState.SplitModule | src/configuration/state.cc:2897-2911 | the module path holds no blank or newline; without a delimiter the arguments are empty; otherwise the value is path, delimiter and arguments |
| ConfigState.AddBrokerModule | src/configuration/state.cc:2897-2917 | the module is loaded with its split path and arguments and its path is appended to the broker module list; nothing else changes |
| ConfigState.ResourcePath | src/configuration/state.cc:2764-2771 | an absolute resource file name is used as it is |
| ConfigState.UserMacroIndex | src/configuration/state.cc:2798-2801 | a slot number read from a $USERn$ key lies between 1 and MAX_USER_MACROS |
| ConfigState.UserMacroIndexRoundTrip | src/configuration/state.cc:2798-2801 | every slot from 1 to MAX_USER_MACROS is named by its $USERn$ key |
| ConfigState.ResourceEntry | src/configuration/state.cc:2796-2815 | a valid $USERn$ key stores the trimmed value in slot n-1; any other key leaves every macro as it was and logs one warning; nothing else changes |
| ConfigState.ResourceLine | src/configuration/state.cc:2786-2795 | only a non-empty, non-comment line without '=' is an error; only the macros and the warnings can change |
| ConfigState.ResourceLineSplits | src/configuration/state.cc:2791-2798 | a line "key=value" is its trimmed key applied to its value |
| ConfigState.UserMacroStored | src/configuration/state.cc:2796-2810 | a $USERn$ line with n in range stores its trimmed value in slot n-1 and changes nothing else |
| ConfigState.UserMacroOutOfRangeWarns | src/configuration/state.cc:2800-2805 | a slot number of 0 or above MAX_USER_MACROS only logs a warning naming that number |
| ConfigState.ResourceLines | src/configuration/state.cc:2785-2816 | the loop over a resource file changes only the macros, the warnings and the line counter |
| ConfigState.ParsedResource | src/configuration/state.cc:2763-2827 | an unopenable file fails with its path and no change; an error after opening leaves the resource file as the position; on success the position is restored and only the macros, the warnings and the recorded resource files change, the path being appended |
| ConfigState.ApplyNumber | src/configuration/state.cc:1292-1566 | a setter read as an `unsigned int` keeps the interval length usable and the checked bounds, and never moves the reading position |
| ConfigState.ApplySetting | src/configuration/state.cc:2355-2498 | every setter keeps the configuration well formed and within its bounds, and one that succeeds leaves the reading position alone |
| ConfigState.MainEntry | src/configuration/state.cc:95-115 | the key is looked up in the key table SettingOf; an unknown perfdata key changes nothing; any other unknown key is refused as an unknown variable name, with the position; setters keep the bounds |
| ConfigState.SettingOf | src/configuration/state.cc:2355-2487 | the key table of the main file knows every key of the plain-option list; the lemmas below give the setter each key selects |
| ConfigState.CheckedKeySelectsSetter | src/configuration/state.cc:2384-2444 | each checked setting other than the reaper pair is selected by the key that bears its own name |
| ConfigState.ReaperKeys | src/configuration/state.cc:2426-2428 | check_result_reaper_frequency and service_reaper_frequency both select the reaper interval, and max_check_result_reaper_time the reaper time |
| ConfigState.MainLine | src/configuration/state.cc:84-115 | empty and comment lines change nothing; a line without '=' is refused as a bad variable name, with the position |
| ConfigState.MainLines | src/configuration/state.cc:83-116 | the loop keeps the bounds and, unless it fails, the file name, and never moves the line counter backwards |
| ConfigState.ParsedMain | src/configuration/state.cc:73-125 | an unopenable file fails with its name and no change; a successful parse opened the file, names it as the position, and has a log file |
| ConfigState.MainLineSplits | src/configuration/state.cc:89-100 | a line "key=value" is its trimmed key applied to its value |
| ConfigState.UnknownKeyRejected | src/configuration/state.cc:112-115 | a key that is neither in the key table nor a perfdata key is refused with the position and the key |
| ConfigState.PerfdataKeySkipped | src/configuration/state.cc:108-111 | an unknown key starting with host_perfdata or service_perfdata is passed over |
| ConfigState.MainEntryKnown | src/configuration/state.cc:96-106 | a key of the key table applies the setter the table gives it to the trimmed value, and its message, if any, is prefixed with the position |
| ConfigState.ApplyResourceFile | src/configuration/state.cc:2355 | the resource_file setting reads the resource file |
| ConfigState.ApplyCheckedNumber | src/configuration/state.cc:1292-1566 | a checked setting given as a decimal number is that number passed to its setter |
| ConfigState.CheckedValueRejected | src/configuration/state.cc:1292-1566 | a value below a checked setting's minimum is refused with the position and the setting's name, and nothing changes |
| ConfigState.CheckedValueStored | src/configuration/state.cc:1292-1566 | a value at or above the minimum is stored and nothing else changes |
| ConfigState.CheckedKeyLine | src/configuration/state.cc:1292-1566 | a checked setting given by its own key in the main file is refused below its minimum, with the position and its name, and stored otherwise |
| ConfigState.ResourceErrorNamesResourceFile | src/configuration/state.cc:2781-2794 | a resource file that fails after opening makes the main file's message name the resource file |
| ConfigState.State.constructor | src/configuration/state.cc:2346-2353 | the state starts from the given configuration, with one slot per user macro |
| ConfigState.State.ReadResourceLines | src/configuration/state.cc:2785-2816 | the line loop leaves the configuration and the error exactly as ResourceLines defines them |
| ConfigState.State.ParseResourceFile | src/configuration/state.cc:2763-2827 | a missing file is reported; otherwise the line loop runs on the resource file, and the configuration and the error are exactly as ParsedResource defines them |
| ConfigState.State.SetEntry | src/configuration/state.cc:94-115 | the dispatch of one assignment leaves the configuration and error exactly as MainEntry defines them |
| ConfigState.State.ProcessLine | src/configuration/state.cc:84-115 | one loop step leaves the configuration and error exactly as MainLine defines them |
| ConfigState.State.Parse | src/configuration/state.cc:73-125 | the whole parse leaves the configuration and error exactly as ParsedMain defines them |

## Left out

- Files, sockets, the MySQL and TLS libraries, Qt threads and signals, `getopt`, `passthru`, `file_get_contents` and `file_put_contents` are not modelled; what they return is a parameter of the operation that calls them, and what they are sent is recorded in the model's state.
- Clocks and time zones are not modelled: the times `_process_tasks` reads are inputs, and the `TZ`/`tzset` calls of `parse`, the broker timestamps of the dependency events and `strtotimet` of the time-period tests.
- Logger output is left out; the resource-file warnings are recorded as a list of messages instead, because their count and text are part of what `_parse_resource_file` promises.
- Floating-point printing (`%f` in the BBDO encoder, a stream's `operator<<` in the InfluxDB encoder) is not modelled; the printed text is an input.
- `qChecksum` is a function parameter of the BBDO serializer, because it is defined outside the modelled files.
- The BAM comparison tolerance `COMPARE_EPSILON` is a parameter, because it is defined outside the modelled files.
- Muxer.MuxerQueue.SetEventQueueMaxSize: the limit is one static shared by every muxer in the source; the model keeps it per queue, so setting it on one muxer does not change the limit of the others.
- The muxer's statistics, its mutex and condition variable, and the blocking wait of `read` with a timeout are left out; only the non-blocking case of `read` is modelled.
- The loading of the macro cache from a persistent cache and `_save_to_disk` are left out, because they are file I/O.
- `misc::get_next_line` is abstracted: the object parser takes the file as a list of numbered lines, and the main-file reader takes it as a list of physical lines.
- `object::create` is assumed to recognise exactly the fifteen type names, spelled as the enumerators, because its definition is not part of this model.
- The blank set of `misc::trim_left` and `misc::trim_right` in the object parser is assumed to be that of `isspace`.
- `_resolve_template`, `_apply_hostextinfo`, `_apply_serviceextinfo`, `_parse_global_configuration`, `_parse_directory_configuration` and `_parse_resource_file` of the object parser are left out, and so is the typed cast of `_store_into_map`; the parser's key is the named property of the object.
- ObjectParser.HostsOfGroups: the recursion over nested host groups is bounded by a fuel argument, because the engine does not bound it and a cycle of groups would not terminate there.
- EndpointApplier.CreateSpec: failover chains are followed to a depth bounded by fuel, the number of endpoints to create; a longer chain can only be a cycle, on which the source recurses forever, and the model reports it as an error.
- EndpointApplier protocols are required to be well formed (lowest layer at most highest layer), because otherwise the source's layer loop does not terminate.
- Endpoints that are stopped remain in the endpoint table until their thread has terminated; the table's `terminated_*` bookkeeping is not modelled.
- ConfigObject.ExtractNat: `operator>>` is modelled for unsigned decimal numbers only; signs, overflow and the other extracted types are not modelled.
- ConfigObject.MergeOption: assigning a default to an `opt<T>` is assumed to mark it as set, because the `opt` class is not part of this model.
- ServicedependencyApplier: the failure-option bit values (ok, unknown, warning, critical, pending as bits 0 to 4) are assumed, because the enumeration is defined outside the modelled files; `obj.key()` is modelled as the configured dependency itself; and the engine's `resolve` of a found dependency is left out.
- ConfigState: the conversions of `cpp_suck::set_generic` and `cpp_suck_cast::set_generic_cast` (used by debug_level, read as an `int` and cast to `unsigned long`) are assumed to read the whole text as a decimal number, because those helpers are not part of this model.
- ConfigState: the `DEFAULT_*` values are not modelled; the `State` constructor takes the initial configuration.
- ConfigState: the value of the `all` debug constant and the date, inter-check-delay and interleave enumerations are kept symbolic, and `most` is taken as 2 (verbosities basic, more, most numbered from 0), because they are defined outside the modelled files.
- ConfigState: the float setters, `set_use_timezone` and the `MACRO_*` global macros are left out; every other key stores its text unconverted.
- ConfigState: the "parsing failed" check of the stream state at the end of `parse` is left out, because stream errors are not modelled.
- ConfigState: among the engine globals the setters write, only the one of `command_check_interval` is modelled.
- ConfigState.SetCommandCheckIntervalText: its own contract states only what can change; the seconds and interval-length cases are stated by CommandCheckIntervalSeconds and CommandCheckIntervalUnits, and an 's' before the end is not characterised.
- ConfigState.NextLineWith, ObjectParser.StepLine and ObjectParser.ParseAll have contracts that state only progress and well-formedness; what they compute is stated by the lemmas about them.
- MysqlConnection.Connection.ProcessTasks: the handlers other than prepare, statement and commit (queries, the other statement kinds, fetches, the version) are given by the error they set and whether they mark a commit as needed; their results and promises are not modelled.
- Influxdb8.Influxdb8Writer.constructor: the trial connection is taken to succeed, because a constructor cannot fail in the model; Influxdb8.Open carries the attempt and its error, with the outcome as an input.
- Influxdb8.ContentLength: lengths are counted in characters, while `_query.size()` counts bytes, so a metric name outside ASCII gives a different figure.
- MysqlConnection.RunTask, MysqlConnection.DrainAddsOnlyPrepared, MysqlConnection.Handle: the other statement kinds (`_statement_res`, `_statement_int`) use the corrected lookup, which leaves the statement table alone; the empty entry their `_stmt[id]` inserts in the source exists only in LookupAsWritten (see Findings), so "only a prepare adds a statement" is a property of the corrected program.
- MysqlConnection: the reconnection of the run loop after an error (`_try_to_reconnect`, which clears the statement table) and `_process_while_empty_task` are left out.
- MysqlConnection: `_last_commit + _max_second_commit_delay` overflows `time_t` when a connection commits every query; the model adds unbounded integers, which makes no difference there because the commit then changes nothing.
- FindInLog.Find: the `AttributeError` the script raises on a line without a date is not modelled; every line is given a date.
- ConfigObject.MergeDefault also stands for `MRG_INHERIT`, which calls `set` on the option instead of assigning it; the difference lies in the `opt` class, which is not part of this model.
- BbdoOutput.EncodeField: the unknown-type error message leaves out the event type's name and the type id that the source prints.
- FindInLog: the parsing of the log's dates is abstracted into a list of dates, and the logger output is left out.
- TimeperiodUtils: `add_timerange_to_timeperiod` is recorded as a request on the period rather than modelled, because it is defined outside the modelled files.
- TimeperiodUtils.Hmtos: computes on unbounded integers and does not model the 32-bit `int` overflow of the source, which would only occur for hours beyond 596523.
- Acceptance: the `echo` lines of the script are left out, and `xpath` is modelled as the identity on the build directory.
- TlsParams: the priority choice of `Apply` is modelled as written, including that asking for compression leaves DEFLATE out of the priority string; the Diffie-Hellman parameters and `Accept` of the acceptor are left out.

## Findings

| source | as written | input that shows it | evidently intended | confidence | as-written member | corrected member |
|---|---|---|---|---|---|---|
| centreon-broker/core/src/multiplexing/muxer.cc:79-99 | when the memory file gives no event, `_pos` is set to `begin()` of the empty list, which is its end, before the queue-file events are loaded; the constructor's queue-file loop (89-96) appends them with `_events.push_back` directly, bypassing the cursor update of `_push_to_queue`, so `_pos` stays at `end()`, past the recovered events | an empty memory file and a queue file holding one event: that event is queued but is not read until a `nack_events` rewinds the cursor (Muxer.RecoveredReadAfterNack) | the cursor starts on the first recovered event | not executed | Muxer.InitialPosAsWritten, Muxer.RecoveredEventsUnreadable, Muxer.RecoveredReadAfterNack | Muxer.RecoveredEventsReadable (the constructor starts the cursor at 0) |
| broker/core/src/mysql_connection.cc:446-452 | `_statement_res` (and `_statement_int`, 549-556) looks the id up with `_stmt[id]`, which inserts an empty entry for an id that was never prepared; the task's promise is rejected but no connection error is set, so the task is popped and the entry stays, and a later `_prepare` of that id finds it present and refuses it. On the `_statement` path (354-360) the error is set instead, the run loop reconnects and `_clear_connection` empties the table, so that task is retried rather than blocking the prepare | a `_statement_res` task for statement 1, then a prepare of statement 1: the statement stays unprepared | the lookup reads the table without changing it | not executed | MysqlConnection.LookupAsWritten, MysqlConnection.StatementBeforePrepareBlocksIt | MysqlConnection.Lookup, MysqlConnection.StatementBeforePrepareThenPrepares, MysqlConnection.PrepareThenStatement, MysqlConnection.Handle, MysqlConnection.RunTask, MysqlConnection.DrainAddsOnlyPrepared (Connection.Statement and the processing table use Lookup) |
| centreon-engine/src/configuration/parser.cc:29-45 | the store table is indexed by `object_type` but its slots follow another order. Host dependencies (slot 4) and services (slot 13) go to map slots and host groups (slot 7) and service groups (slot 12) to list slots, while `parse` reads each of them from the other kind of slot, so all four are lost. The map slots of contact groups, contacts, host dependencies, hosts and services cast the object to another type (contact, contactgroup, host, hostgroup, servicegroup) to read its key, which is undefined behaviour | one service definition: it is stored in the map slot and never reaches the state's services. Under the model's reading of the cast as the named property, two hosts without a hostgroup_name: the second is refused as already existing | the table in the order of the enumeration | not executed | ObjectParser.StoreAsWrittenMismatch, ObjectParser.StoreAsWrittenLosesTypes, ObjectParser.ServiceLostAsWritten, ObjectParser.HostsCollideAsWritten | ObjectParser.StoreByEnumMatchesTypes, ObjectParser.ServiceKeptByEnum (the Parser class takes the table as a parameter) |
| src/configuration/state.cc:2590-2591 | a physical line ending in one backslash is appended without its last two characters, so the character before the backslash is lost | the lines "a=12\" and "3" are read as "a=13" | only the backslash is dropped, giving "a=123" | not executed | ConfigState.ContinuationLosesCharacterAsWritten, ConfigState.ContinuationExampleAsWritten | ConfigState.ContinuationJoins, ConfigState.NextLine (GetLine and the State class use the cut of one character) |
