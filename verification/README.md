# J2735 message generation from scene metadata, in Dafny

This project models the core of J2735_mistRSAGen. The program reads the
metadata of a recorded driving dataset: datasets, ego poses, frames, frame
data, frame annotations, instances, logs and sensors. It turns that
metadata into SAE J2735 payloads and dispatches them.

- **Join** (`UuidMatching.java`). `UuidPut` indexes the entity lists by
  uuid; when a uuid repeats, the first entity listed wins. For every
  FrameData and each of its FrameAnnotations whose foreign keys all
  resolve, it builds one flat record whose keys are `<entity>_<field>`.
- **RoadSideAlert assembler** (`RsaValueCreator.java`). It builds one RSA
  payload per joined record. Each payload carries a rolling `DE_MsgCount`
  (0..127), ITIS description codes, a heading and a position converted
  from UTM zone 52. ClassCastException and NullPointerException are caught
  per record. Other exceptions end the batch.
- **TravelerInformation assembler** (`TimValueCreator.java`). It builds one
  TIM payload per joined record. Each payload has one data frame: a region
  with a two-node path and a comma-separated advisory text. Nothing is
  caught, so the first failing record ends the batch.
- **Dispatcher** (`RsaMessageCreator.java`). It builds the RSA list once.
  A one-second periodic timer then sends one message per period, wrapped
  with the RSA message id (DSRCmsgID 27, `roadSideAlert`), through a J2735
  encode/decode round trip whose result is only logged. The timer cancels
  itself after the last message. `ITISRSACodeGen` and its two lookup tables
  live in the same class; here they are a module of their own (`ItisCodes`).

## Modules

| file | module | what it holds |
|---|---|---|
| `values.dfy` | `Values` | Dynamic JSON values, Java exceptions, the Java casts and reads the assemblers make, and the external conversions as function values |
| `itis_codes.dfy` | `ItisCodes` | The ITIS lookup tables and `ITISRSACodeGen` |
| `message_loop.dfy` | `MessageLoop` | The loop both assemblers share, as a specification (`Run`) and as a method on the counter object (`Counter.RunBatch`), with the properties every such loop has |
| `uuid_matching.dfy` | `UuidMatching` | The indexes, the prefixed maps, the join as a specification (`Join`) and as the source runs it (`UuidPut`), and its properties |
| `rsa_value_creator.dfy` | `RsaValueCreator` | The RSA payload, the loop body for one record, and the batch |
| `tim_value_creator.dfy` | `TimValueCreator` | The TIM payload, the loop body for one record, and the batch |
| `rsa_message_creator.dfy` | `RsaMessageCreator` | `processMessage`, the timer as a state machine, and the dispatcher as a class |

The source mutates some state in place. Those parts are imperative Dafny:

- the static `msgCnt` of each assembler is `MessageLoop.Counter`;
- the assembler loops are `Counter.RunBatch`;
- the join loops are `UuidPut` (over the FrameData) and `JoinAnnotations`
  (over the annotations); `FrameDataJoin` has no loop of its own and is the
  body of `UuidPut`'s loop;
- the `putAll` chain is `MergeRecord`, and the prefixed map is `CreatePrefixedMap`;
- the verticle is `RsaMessageCreator.Dispatcher`, with its cursor, list and timer.

Each of these methods is proved against a specification function. Those
functions are `Run`, `Join`, `Flatten`, `Prefixed` and `TickSpec`/`AfterTicks`.
The properties are then proved about the functions.

## Where the code departs from its documented intent

The source's own comments, names and guards suggest an intent that the code
does not carry out in each of these cases. The model follows the code.

- **The dataset lookup is not guarded.** The join guards the frame lookup
  with `frame != null` (UuidMatching.java:51) and the egoPose, sensor, log
  and instance lookups at :61. The dataset fetched at :52 is dereferenced
  at :53 without a check. So a FrameData whose frame resolves but whose
  dataset does not throws NullPointerException. That ends the whole join
  instead of skipping the FrameData (`UuidMatching.JoinFailsIffDanglingDataset`).
- **Only two exceptions are contained.** `createRsaMessage` has handlers
  for ClassCastException and NullPointerException only
  (RsaValueCreator.java:128-133), although its comment at :52 speaks of
  type safety. Two other exceptions escape, and either one ends the batch
  (`RsaValueCreator.AssembleRsa`):
  - the NumberFormatException of `Double.parseDouble` on a timestamp that
    is not a number (a null timestamp becomes the string "null");
  - the IndexOutOfBoundsException of `translation.get` on a list with
    fewer than three elements.
- **A dropped record still uses a counter value.** The comment at
  RsaValueCreator.java:72 says only that the counter stays below 128. The
  increment there runs before the category, vehicle-state and visibility
  casts at :81-92. A record that fails one of those casts consumes a
  counter value without producing a message
  (`RsaValueCreator.DroppedRecordConsumesCounter`). A record skipped
  before the increment leaves no gap (`RsaValueCreator.SkippedRecordKeepsCounter`).
  So the messages are numbered `(start + j) mod 128` by their place in the
  output as long as no record escapes or fails a cast after the increment
  (`RsaValueCreator.ConsecutiveAmongMessages`).
- **The TIM loop has no handler at all** (TimValueCreator.java:34-174).
  The comment at :133-134 presents the advisory text as a combination of
  the category name and the vehicle state. Yet a null or non-map
  `frameAnnotation_attribute` ends the whole batch and discards the
  messages already built (`TimValueCreator.NullAttributeAbortsBatch`).
  An attribute map without `vehicle_state` is not a failure: the text
  then holds "null".
- **An empty list never stops the timer.** The comment at
  RsaMessageCreator.java:49 says the timer id is kept so that the timer
  can be stopped once every message is processed. The cancellation at
  :61-64 sits inside the branch that needs a non-empty list. A dispatcher
  started on an empty list therefore never cancels its timer
  (`RsaMessageCreator.AfterTicksFromStart`).
- **`ITISRSACodeGen` gets one argument too many.**
  `getDescriptionValuesFromSomeSource` calls it with three arguments
  (RsaValueCreator.java:142), but the method declares two
  (RsaMessageCreator.java:94). The model passes the two it declares. The
  visibility level is read and its cast can fail, but no lookup uses it
  (`RsaValueCreator.GetDescriptionValuesFromSomeSource`).
- **The join is parallel but unsynchronised.** It runs over the FrameData
  with `parallelStream().forEach` (UuidMatching.java:46) and adds to an
  unsynchronised `ArrayList` (:105). The model runs it sequentially in list
  order. Under that order each FrameData's records form one contiguous
  block (`UuidMatching.JoinPrefixAppend`).

## Model

| member | source | states |
|---|---|---|
| Values.CastString | make-rsa/src/main/java/com/ns21/rsa/creator/RsaValueCreator.java:81 | `(String) v` succeeds exactly on null and strings. It gives a string exactly for a string, and that string is v's own |
| Values.CastInteger | make-rsa/src/main/java/com/ns21/rsa/creator/RsaValueCreator.java:92 | `(Integer) v` succeeds exactly on a 32-bit integer, and keeps its value |
| Values.JavaString | make-tim/src/main/java/com/ns21/tim/creator/TimValueCreator.java:161 | `String.valueOf` turns null into "null" and leaves a string unchanged |
| Values.DoubleAt | make-rsa/src/main/java/com/ns21/rsa/creator/RsaValueCreator.java:56-58 | `list.get(k)` unboxed to double: the value at k when it is a double; IndexOutOfBounds exactly when k is past the end |
| Values.ReadTranslation | make-rsa/src/main/java/com/ns21/rsa/creator/RsaValueCreator.java:55-58 | The three reads succeed exactly when the list has three leading doubles, and give them in order. They fail with IndexOutOfBounds exactly when the list is shorter and every element it has is a double |
| ItisCodes.GetCategoryItisCode | make-rsa/src/main/java/com/ns21/rsa/creator/RsaMessageCreator.java:116-132 | Returns a category code exactly when the name is that code's label, and only that code |
| ItisCodes.GetVehicleStateItisCode | make-rsa/src/main/java/com/ns21/rsa/creator/RsaMessageCreator.java:133-144 | Returns a vehicle-state code exactly when the state is that code's label ("moving", "stopped"), and only that code |
| ItisCodes.ItisRsaCodeGen | make-rsa/src/main/java/com/ns21/rsa/creator/RsaMessageCreator.java:94-112 | At most two codes |
| ItisCodes.ItisRsaCodeGenSpec | make-rsa/src/main/java/com/ns21/rsa/creator/RsaMessageCreator.java:94-112 | A code is in the list exactly when its label was given, in either direction. Category codes come before vehicle-state codes. A null or "0" input adds no code of its kind |
| ItisCodes.ItisRsaCodeGenExamples | make-rsa/src/main/java/com/ns21/rsa/creator/RsaMessageCreator.java:94-112 | A truck that moves gives [hazardous material vehicle, stop and go traffic]; "0","0" gives []; null,"stopped" gives [stopped vehicle] |
| MessageLoop.CounterAfter | make-rsa/src/main/java/com/ns21/rsa/creator/RsaValueCreator.java:71-72 | The counter stays in 0..127. It advances modulo 128 for every message and for every record that got past the increment without yielding one. It does not move for a record that never reached the increment |
| MessageLoop.Counter.constructor | make-rsa/src/main/java/com/ns21/rsa/creator/RsaValueCreator.java:28 | The counter starts at 0 |
| MessageLoop.Counter.RunBatch | make-rsa/src/main/java/com/ns21/rsa/creator/RsaValueCreator.java:37-135 | The loop over the records returns the output of `Run` and leaves the counter where `Run` does, in range |
| MessageLoop.RunErrorPersists | make-tim/src/main/java/com/ns21/tim/creator/TimValueCreator.java:34-174 | Once an exception escapes, later records change nothing |
| MessageLoop.RunBounds | make-rsa/src/main/java/com/ns21/rsa/creator/RsaValueCreator.java:71-72 | The counter stays in 0..127 and there is at most one message per record |
| MessageLoop.RunFailsIffEscape | make-rsa/src/main/java/com/ns21/rsa/creator/RsaValueCreator.java:37-134 | The batch fails exactly when some record throws an exception the loop does not catch |
| MessageLoop.AdvanceIsModular | make-rsa/src/main/java/com/ns21/rsa/creator/RsaValueCreator.java:72 | k increments modulo 128 from a counter in range land on (start + k) mod 128 |
| MessageLoop.RunAllBuilt | make-rsa/src/main/java/com/ns21/rsa/creator/RsaValueCreator.java:37-127 | When every record yields a message: one message per record, in order, the i-th built with the counter advanced i times |
| MessageLoop.RunAppend | make-rsa/src/main/java/com/ns21/rsa/creator/RsaValueCreator.java:37-135 | Running two record lists one after the other is running their concatenation |
| MessageLoop.RunPair | make-rsa/src/main/java/com/ns21/rsa/creator/RsaValueCreator.java:37-135 | Two records: the second runs from the counter the first leaves, and the batch is the first escape or the messages of both, in order |
| MessageLoop.RunNumbersByMessage | make-rsa/src/main/java/com/ns21/rsa/creator/RsaValueCreator.java:37-135 | When no record escapes and none advances the counter without a message, message j is numbered (start + j) mod 128 and the counter ends one step past the last message |
| MessageLoop.RunConsecutive | make-rsa/src/main/java/com/ns21/rsa/creator/RsaValueCreator.java:71-72 | When every record yields a message, the messages are numbered (start + i) mod 128 |
| UuidMatching.CreateMapFromList | msit-common/src/main/java/com/ns21/common/mist/parser/UuidMatching.java:116-118 | The index has at most one entry per listed entity, and each entity is indexed under its own uuid |
| UuidMatching.CreateMapFromListKeys | msit-common/src/main/java/com/ns21/common/mist/parser/UuidMatching.java:116-118 | Every listed uuid is a key, and every key maps to a listed entity with that uuid |
| UuidMatching.CreateMapFromListFirstWins | msit-common/src/main/java/com/ns21/common/mist/parser/UuidMatching.java:116-118 | An entity whose uuid no earlier entity has is the one indexed under that uuid |
| UuidMatching.CreateMapFromListIgnoresDuplicates | msit-common/src/main/java/com/ns21/common/mist/parser/UuidMatching.java:116-118 | A later duplicate never displaces the first entity with that uuid |
| UuidMatching.PrefixedNames | msit-common/src/main/java/com/ns21/common/mist/parser/UuidMatching.java:119-131 | The keys of a prefixed map are the field names, each prefixed, in order |
| UuidMatching.CreatePrefixedMap | msit-common/src/main/java/com/ns21/common/mist/parser/UuidMatching.java:119-131 | One entry per declared field, in declaration order, keyed `prefix_name`, holding the field's value |
| UuidMatching.MergedUpToKeys | msit-common/src/main/java/com/ns21/common/mist/parser/UuidMatching.java:62-102 | After merging the first n entities, the keys are their prefixed schemas in merge order |
| UuidMatching.FlattenKeys | msit-common/src/main/java/com/ns21/common/mist/parser/UuidMatching.java:62-102 | Every record has the same key list, whatever the entities |
| UuidMatching.MergeRecord | msit-common/src/main/java/com/ns21/common/mist/parser/UuidMatching.java:62-102 | The `putAll` chain gives the flattened record of the eight entities, with the fixed key list |
| UuidMatching.JoinAnnotations | msit-common/src/main/java/com/ns21/common/mist/parser/UuidMatching.java:55-110 | The annotation loop of one FrameData gives the records of its resolving annotations, in annotation order |
| UuidMatching.AnnotationRecord | msit-common/src/main/java/com/ns21/common/mist/parser/UuidMatching.java:59-109 | One annotation yields its record exactly when it belongs to the FrameData and egoPose, sensor, log and instance resolve |
| UuidMatching.FrameDataJoin | msit-common/src/main/java/com/ns21/common/mist/parser/UuidMatching.java:46-111 | One FrameData gives the NullPointerException of a dangling dataset, or else the records of its pairs |
| UuidMatching.UuidPut | msit-common/src/main/java/com/ns21/common/mist/parser/UuidMatching.java:24-114 | The join method computes `Join(store)` |
| UuidMatching.NoFrameNoMatches | msit-common/src/main/java/com/ns21/common/mist/parser/UuidMatching.java:47-61 | A FrameData with a missing frame, dataset, log, egoPose or sensor forms no pair |
| UuidMatching.ErrorPersists | msit-common/src/main/java/com/ns21/common/mist/parser/UuidMatching.java:46-53 | Once a FrameData has failed the join, later ones change nothing |
| UuidMatching.AnnotationMatchesCount | msit-common/src/main/java/com/ns21/common/mist/parser/UuidMatching.java:55-61 | A FrameData whose chain resolves forms exactly one pair per annotation of it whose instance resolves. Any other FrameData forms none |
| UuidMatching.AnnotationMatchesAppend | msit-common/src/main/java/com/ns21/common/mist/parser/UuidMatching.java:55-58 | The pairs of one FrameData keep the annotation list's order |
| UuidMatching.AnnotationMatchesSound | msit-common/src/main/java/com/ns21/common/mist/parser/UuidMatching.java:55-61 | Every pair of one FrameData comes from one of its annotations whose hops all resolve |
| UuidMatching.AnnotationMatchesComplete | msit-common/src/main/java/com/ns21/common/mist/parser/UuidMatching.java:55-61 | Every annotation of a FrameData whose hops all resolve forms its pair |
| UuidMatching.JoinPrefix | msit-common/src/main/java/com/ns21/common/mist/parser/UuidMatching.java:46-112 | The join over a list of FrameData, in list order, fails only with NullPointerException. Otherwise it yields at most one pair per (FrameData, FrameAnnotation) pair |
| UuidMatching.Join | msit-common/src/main/java/com/ns21/common/mist/parser/UuidMatching.java:24-113 | The join of a data store fails only with NullPointerException. Otherwise it emits at most one record per (FrameData, FrameAnnotation) pair |
| UuidMatching.JoinFailsIffDanglingDataset | msit-common/src/main/java/com/ns21/common/mist/parser/UuidMatching.java:51-53 | The join fails exactly when some frame resolves while its dataset does not, and the failure is NullPointerException |
| UuidMatching.JoinPrefixAppend | msit-common/src/main/java/com/ns21/common/mist/parser/UuidMatching.java:46-112 | The join of two FrameData lists is the two joins concatenated: each FrameData's records form one block |
| UuidMatching.JoinSound | msit-common/src/main/java/com/ns21/common/mist/parser/UuidMatching.java:46-109 | Every pair the join forms comes from a (FrameData, FrameAnnotation) pair whose hops all resolve |
| UuidMatching.JoinComplete | msit-common/src/main/java/com/ns21/common/mist/parser/UuidMatching.java:46-109 | A successful join contains the pair of every (FrameData, FrameAnnotation) pair whose hops all resolve |
| UuidMatching.JoinRecordsSound | msit-common/src/main/java/com/ns21/common/mist/parser/UuidMatching.java:46-109 | Every record of a data store's join is the flattened record of a resolving pair of the store, with the fixed key list |
| UuidMatching.JoinRecordsComplete | msit-common/src/main/java/com/ns21/common/mist/parser/UuidMatching.java:46-109 | A successful join emits the record of every resolving pair of the store |
| RsaValueCreator.GetDescriptionValuesFromSomeSource | make-rsa/src/main/java/com/ns21/rsa/creator/RsaValueCreator.java:139-143 | At most two codes. A category code is present exactly when its label is the category name, and a vehicle-state code exactly when its label is the vehicle state. The visibility level plays no part |
| RsaValueCreator.AssembleRsa | make-rsa/src/main/java/com/ns21/rsa/creator/RsaValueCreator.java:38-134 | For each record: an escaping NumberFormat for a non-numeric timestamp; a silent skip for a non-list translation; an escaping IndexOutOfBounds for a short one; a caught ClassCast or NullPointer, before or after the counter; a message carrying the counter it found, exactly when every read succeeds |
| RsaValueCreator.AssembleRsaMessage | make-rsa/src/main/java/com/ns21/rsa/creator/RsaValueCreator.java:43-126 | Gives each field of the message: counter, minute of the year, event type 0, ITIS codes, priority "01", heading, position (longitude from index 1, latitude from index 0) and region 4 with log location, frame-data uuid and sensor name |
| RsaValueCreator.CreateRsaMessage | make-rsa/src/main/java/com/ns21/rsa/creator/RsaValueCreator.java:30-137 | A failed join passes its exception through and leaves the counter alone. Otherwise the result is the loop over the joined records, and the counter is left where the loop leaves it |
| RsaValueCreator.RsaRunBounds | make-rsa/src/main/java/com/ns21/rsa/creator/RsaValueCreator.java:37-135 | The counter stays in 0..127, there is at most one message per record, and the batch fails exactly when a record throws an uncaught exception |
| RsaValueCreator.AllAssembleBuilt | make-rsa/src/main/java/com/ns21/rsa/creator/RsaValueCreator.java:43-126 | Records whose reads all succeed yield a message carrying the counter they found |
| RsaValueCreator.ConsecutiveMessageCounts | make-rsa/src/main/java/com/ns21/rsa/creator/RsaValueCreator.java:71-72 | When every record assembles: one message per record, numbered (start + i) mod 128, and the counter ends |records| steps on |
| RsaValueCreator.ConsecutiveAmongMessages | make-rsa/src/main/java/com/ns21/rsa/creator/RsaValueCreator.java:53-92 | When no record escapes and none is dropped after the increment, message j is numbered (start + j) mod 128, whatever records were skipped before it, and the counter ends one step past the last message |
| RsaValueCreator.SkippedRecordKeepsCounter | make-rsa/src/main/java/com/ns21/rsa/creator/RsaValueCreator.java:53-72 | A record whose translation is no list yields no message and leaves the counter, so the next record's message gets the starting value |
| RsaValueCreator.AbsentValuesDefault | make-rsa/src/main/java/com/ns21/rsa/creator/RsaValueCreator.java:62-95 | A record with no category, attribute, visibility level or rotation still yields a message, with an empty ITIS description and heading "0" |
| RsaValueCreator.RsaRunAppend | make-rsa/src/main/java/com/ns21/rsa/creator/RsaValueCreator.java:37-135 | The batch over two record lists is the two batches concatenated |
| RsaValueCreator.DroppedRecordConsumesCounter | make-rsa/src/main/java/com/ns21/rsa/creator/RsaValueCreator.java:71-95 | A record that gets past the increment and then fails a cast yields no message but consumes a counter value. A record after it that assembles is numbered two steps on, and the counter ends two steps on |
| RsaValueCreator.CounterAdvancesWithoutMessage | make-rsa/src/main/java/com/ns21/rsa/creator/RsaValueCreator.java:71-84 | Such a record exists: one whose category name is an integer reaches the increment and then fails its `(String)` cast, while the same record without a category assembles |
| TimValueCreator.CombinedTimestampSplits | make-tim/src/main/java/com/ns21/tim/creator/TimValueCreator.java:44-45 | The packed timestamp unpacks to year and offset when the offset is below 1000000, and two int parts never overflow the long |
| TimValueCreator.TranslationOf | make-tim/src/main/java/com/ns21/tim/creator/TimValueCreator.java:50-53 | A null translation throws NullPointer, a non-list fails the cast, and a list is read like the RSA one |
| TimValueCreator.AssembleTim | make-tim/src/main/java/com/ns21/tim/creator/TimValueCreator.java:35-173 | Nothing is dropped: a message carrying the counter it found exactly when every read succeeds, otherwise an escaping exception. A counter value is consumed exactly when only the attribute failed. A null timestamp or translation throws NullPointer. Once the earlier reads succeed, a null attribute throws NullPointer and a non-map one ClassCast |
| TimValueCreator.AssembleTimMessage | make-tim/src/main/java/com/ns21/tim/creator/TimValueCreator.java:44-171 | Gives each field of the message: counter, minute of the year of year*1000000+offset, and one data frame. The frame has start year/time, anchor, direction, two path nodes at the anchor, and the fixed rights/type/priority. Its advisory text is the category name, the vehicle state, the scenario names and the visibility level, each as string concatenation renders them, joined by ",". Then region 4 with sensor name, frame-data uuid and log location |
| TimValueCreator.CreateTimMessage | make-tim/src/main/java/com/ns21/tim/creator/TimValueCreator.java:27-176 | A failed join passes its exception through and leaves the counter alone. Otherwise the result is the loop over the joined records, and the counter is left where the loop leaves it |
| TimValueCreator.TimRunAllOrNothing | make-tim/src/main/java/com/ns21/tim/creator/TimValueCreator.java:34-174 | The batch fails exactly when some record fails a read. Otherwise it has one message per record, numbered (start + i) mod 128 |
| TimValueCreator.TimRunAppend | make-tim/src/main/java/com/ns21/tim/creator/TimValueCreator.java:34-175 | The batch over two record lists is the two batches concatenated |
| TimValueCreator.NullAttributeAbortsBatch | make-tim/src/main/java/com/ns21/tim/creator/TimValueCreator.java:34-137 | A record that reaches the counter with a null attribute fails the whole batch with NullPointer after a good record. The good record's message is discarded, and both records consumed a counter value |
| TimValueCreator.NullAttributeExample | make-tim/src/main/java/com/ns21/tim/creator/TimValueCreator.java:136-137 | Such a pair exists: a record with an empty attribute map assembles, and the same record without the attribute reaches the counter with a null attribute |
| RsaMessageCreator.ProcessMessage | make-rsa/src/main/java/com/ns21/rsa/creator/RsaMessageCreator.java:70-91 | The logged pair exists exactly when the encoding of the envelope (id 27) and its decoding both succeed, its first half is that encoding, and its second half is the decoding of the first |
| RsaMessageCreator.Envelopes | make-rsa/src/main/java/com/ns21/rsa/creator/RsaMessageCreator.java:73-77 | One envelope per message, in order, each with message id 27 |
| RsaMessageCreator.TickSpec | make-rsa/src/main/java/com/ns21/rsa/creator/RsaMessageCreator.java:51-65 | A period advances the cursor by one exactly when the timer runs and messages remain; otherwise nothing changes. A cancelled timer is never registered again. The period that moves the cursor onto the end cancels the timer, and no other period does |
| RsaMessageCreator.AfterTicks | make-rsa/src/main/java/com/ns21/rsa/creator/RsaMessageCreator.java:50-66 | Over t periods the cursor never goes back and moves at most t steps, and a cancelled timer stays cancelled |
| RsaMessageCreator.AfterTicksFromStart | make-rsa/src/main/java/com/ns21/rsa/creator/RsaMessageCreator.java:50-66 | From the start, after t periods the cursor is at min(t, size). The timer runs until it reaches the size, then is cancelled. An empty list keeps the timer forever |
| RsaMessageCreator.AfterTicksBounds | make-rsa/src/main/java/com/ns21/rsa/creator/RsaMessageCreator.java:50-66 | The cursor never goes back, stays within the list and moves at most one step a period. A cancelled timer has reached the end, and only reaching the end stops progress |
| RsaMessageCreator.Dispatcher.constructor | make-rsa/src/main/java/com/ns21/rsa/creator/RsaMessageCreator.java:30-32 | No list, cursor 0, no timer, nothing sent |
| RsaMessageCreator.Dispatcher.Start | make-rsa/src/main/java/com/ns21/rsa/creator/RsaMessageCreator.java:41-50 | The list is built once, and the timer is registered exactly when building it succeeded. The counter is left where the RSA batch leaves it, and unchanged when the join fails |
| RsaMessageCreator.Dispatcher.Tick | make-rsa/src/main/java/com/ns21/rsa/creator/RsaMessageCreator.java:50-66 | One period follows `TickSpec` and keeps the invariant: exactly the messages before the cursor have been sent, in order |
| RsaMessageCreator.Dispatcher.RunTimer | make-rsa/src/main/java/com/ns21/rsa/creator/RsaMessageCreator.java:50-66 | t periods follow `AfterTicks` and keep the same invariant |
| RsaMessageCreator.DrainedAfterSize | make-rsa/src/main/java/com/ns21/rsa/creator/RsaMessageCreator.java:50-66 | After as many periods as messages, every message has been sent once, in order, and the timer is cancelled |

## Left out

- JSON text is not modelled. The record a join emits is a list of entries. `Facts` turns it into the map Jackson reads back, and payloads are datatypes rather than serialised strings. So `JsonProcessingException` and the `IOException` of `readValue` are not modelled either.
- Reflection is not modelled. `getDeclaredFields` is replaced by a fixed field list per entity type: the fields the entity is documented with, in that order. The DTO classes are not part of this model, so the list is assumed rather than read from the classes. Two things are therefore unchecked: that `getDeclaredFields` returns exactly these fields (it leaves out inherited ones), and the order it returns them in. The `IllegalAccessException` path that wraps into `JsonToJ2735Exception` is not modelled.
- Null uuids are not modelled: every uuid is a string. In the source, `toMap` with a merge function accepts a null key. So an entity with a null uuid is indexed under null, and a null foreign key resolves to it. Only a FrameAnnotation with a null `frameDataUuid` throws, at the `equals` of UuidMatching.java:56.
- The parallelism of the join is not modelled (see above). Neither is any race on the unsynchronised output list.
- The external conversions are parameters. These are timestamp parsing, minute of the year, UTC map, timestamp decomposition, the two UTM conversions, the two quaternion conversions and `toString`. Timestamp parsing may fail: its NumberFormatException is modelled as `None`, and that escapes and ends the RSA batch. Every other conversion is assumed to return normally. The model says nothing about the values they return. `MetaDataConvertUtil` is not part of this model.
- `DataStorage`, `MetaDataExtracting.processFiles` and file loading are not modelled. The entity store is an input.
- The J2735 codec (`JsonToJ2735`, `J2735ToJson`) is a parameter that may fail. Logging is left out, so `processMessage` returns what it would log.
- The Vert.x timer is not modelled. Its periods are the ticks of `RunTimer`, and its registration and cancellation are a boolean field.
- The numeric ITIS code values live in `ItisCodes`, which is not part of this model, so the codes are constructors. The RSA message id 27 is `roadSideAlert` of SAE J2735's DSRCmsgID; `J2735MessageID` is not part of this model.
- `TimValueCreator.DataFrameOf`: the source puts `duratonTime`, `priority` and `sspLocationRights` after the frame is already in its list. The payload is a value here, so it holds them all from the start, in the source's key order.
- `RsaMessageCreator.Dispatcher.Start`: `start` is assumed to run once, on a fresh verticle. The static `currentIndex` and `msgCnt` are fields of one dispatcher and one counter object.
- `RsaMessageCreator.Dispatcher.Tick`: the `sent` history records each envelope handed to the codec. It does not record whether the codec succeeded.
- `UuidMatching.MergeRecord`: the eight `createPrefixedMap`/`putAll` calls run as one pass over the constant merge order, not as eight separate statements. A record is a list of entries rather than a hash map. The map `putAll` builds has the same entries only if no key repeats across the eight entities. The `<entity>_` prefixes are meant to ensure that, but this model does not prove it, and `ToFact` is not proved to read each entry back.
- `Values.Conversions`: no conversion other than timestamp parsing can throw in this model. In the source, a throw from one of them would do different things in the two loops:
  - in the TIM loop, which has no handler, it ends the batch;
  - in the RSA loop, whose handlers sit inside the loop (RsaValueCreator.java:37-38 and :128-133), a ClassCastException or NullPointerException drops only that record, and any other exception ends the batch;
  - a dropped RSA record leaves the counter alone if the throw comes before the increment at :72, for example from `quaternionToHeading` at :63-64;
  - it consumes a counter value if the throw comes after :72, for example from `convertTimestampToUtcMap` at :104.
