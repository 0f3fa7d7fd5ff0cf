/** The RoadSideAlert assembler: one RSA payload (the RoadSideAlert
    message of SAE J2735) per joined scene record, with a rolling
    `DE_MsgCount` (0..127) kept in a process-wide counter, defaults for
    missing values, and per-record containment of ClassCastException and
    NullPointerException. */
module RsaValueCreator {
  import opened Values
  import opened ItisCodes
  import opened MessageLoop
  import UuidMatching

  const UtmZone: int := 52

  datatype Cits = Cits(stopID: Value, text: Value, sendUniqueId: Value)
  datatype RegExtValue = RegExtValue(cits: Cits)
  datatype Regional = Regional(regionId: int, regExtValue: RegExtValue)
  datatype Position = Position(utcTime: Value, long: int, lat: int, elevation: int)

  /** The RSA payload, its fields in insertion order. */
  datatype RsaMessage = RsaMessage(
    msgCnt: int,
    timeStamp: int,
    typeEvent: int,
    description: seq<ItisCode>,
    priority: string,
    heading: string,
    position: Position,
    regional: seq<Regional>)

  function MsgCntOf(m: RsaMessage): int {
    m.msgCnt
  }

  /** What the loop body does with one record: a message; a record
      skipped because its translation is no list (no cause) or dropped on a
      caught ClassCastException or NullPointerException; or an exception
      the loop does not catch. */
  type RsaOutcome = Outcome<RsaMessage>

  /** The epoch of `egoPose_timestamp`: `String.valueOf` of the value, 0 when
      that is empty, otherwise parsed (None when the parse throws). */
  function EpochOf(conv: Conversions, fact: Fact): Option<int> {
    var timestampStr := JavaString(conv, Get(fact, "egoPose_timestamp"));
    if timestampStr != "" then conv.parseTimestamp(timestampStr) else Some(0)
  }

  /** `instance_categoryName`, cast to String; "0" when the key is absent. */
  function CategoryNameOf(fact: Fact): Result<Option<string>> {
    if "instance_categoryName" in fact then CastString(fact["instance_categoryName"]) else Ok(Some("0"))
  }

  /** `vehicle_state` of `frameAnnotation_attribute`, both cast; "0" when the
      attribute is absent or null. */
  function VehicleStateOf(fact: Fact): Result<Option<string>> {
    var attribute := Get(fact, "frameAnnotation_attribute");
    if attribute.Null? then Ok(Some("0"))
    else if attribute.Obj? then CastString(Get(attribute.fields, "vehicle_state"))
    else Err(ClassCast)
  }

  /** `frameAnnotation_visibilityLevel`, cast to Integer; 0 when absent or null. */
  function VisibilityLevelOf(fact: Fact): Result<int> {
    var level := Get(fact, "frameAnnotation_visibilityLevel");
    if level.Null? then Ok(0) else CastInteger(level)
  }

  /** The casts made after the counter has advanced all succeed. */
  predicate CastsSucceed(fact: Fact) {
    CategoryNameOf(fact).Ok? && VehicleStateOf(fact).Ok? && VisibilityLevelOf(fact).Ok?
  }

  /** `getDescriptionValuesFromSomeSource`: delegates to the ITIS lookup.
      The visibility level is passed along but no lookup uses it: the codes
      are those named by the category and the vehicle state alone. */
  function GetDescriptionValuesFromSomeSource(categoryName: Option<string>, vehicleState: Option<string>,
                                              visibilityLevel: int): (codes: seq<ItisCode>)
    ensures |codes| <= 2
    ensures forall c :: IsCategoryCode(c) ==> (c in codes <==> categoryName == Some(CategoryLabel(c)))
    ensures forall c :: !IsCategoryCode(c) ==> (c in codes <==> vehicleState == Some(VehicleStateLabel(c)))
  {
    ItisRsaCodeGenSpec(categoryName, vehicleState);
    ItisRsaCodeGen(categoryName, vehicleState)
  }

  /** `heading`: the converted `sensor_rotation` when it is a list, else "0". */
  function HeadingOf(conv: Conversions, fact: Fact): string {
    var rotation := Get(fact, "sensor_rotation");
    if rotation.List? then conv.quaternionToHeading(rotation.items) else "0"
  }

  /** The exceptions the loop does not catch: `Double.parseDouble` of a
      timestamp that is no number (null included, as "null"), and a
      translation list with fewer than three elements. */
  predicate Escapes(conv: Conversions, fact: Fact) {
    || EpochOf(conv, fact).None?
    || (&& Get(fact, "egoPose_translation").List?
        && ReadTranslation(Get(fact, "egoPose_translation").items) == Err(IndexOutOfBounds))
  }

  /** The records that yield a message. */
  predicate Assembles(conv: Conversions, fact: Fact) {
    && EpochOf(conv, fact).Some?
    && Get(fact, "egoPose_translation").List?
    && ReadTranslation(Get(fact, "egoPose_translation").items).Ok?
    && CastsSucceed(fact)
  }

  /** The records that get past the increment and then fail a cast: they
      consume a counter value and yield no message. */
  predicate DroppedAfterIncrement(conv: Conversions, fact: Fact) {
    && EpochOf(conv, fact).Some?
    && Get(fact, "egoPose_translation").List?
    && ReadTranslation(Get(fact, "egoPose_translation").items).Ok?
    && !CastsSucceed(fact)
  }

  /** The body of the loop of `createRsaMessage` for one record, given the
      counter value it finds: a NumberFormatException on a timestamp that
      is no number, a silent skip when the translation is no list, an
      IndexOutOfBoundsException that escapes when it is too short, a caught
      exception (before or after the counter advanced) when a value has the
      wrong type, and a message exactly when every read succeeds. */
  function AssembleRsa(conv: Conversions, fact: Fact, msgCnt: int): (r: RsaOutcome)
    ensures EpochOf(conv, fact).None? ==> r == Escaped(NumberFormat, false)
    ensures EpochOf(conv, fact).Some? && !Get(fact, "egoPose_translation").List? ==> r == Dropped(None, false)
    ensures r.Built? <==> Assembles(conv, fact)
    ensures r.Escaped? <==> Escapes(conv, fact)
    ensures r.Escaped? ==> !r.counterUsed && (r.error == NumberFormat || r.error == IndexOutOfBounds)
    ensures r.Dropped? && r.cause.Some? ==> r.cause.value == ClassCast || r.cause.value == NullPointer
    ensures r.Dropped? && r.counterUsed <==> DroppedAfterIncrement(conv, fact)
    ensures r.Built? ==> r.message.msgCnt == msgCnt
  {
    match EpochOf(conv, fact)
    case None => Escaped(NumberFormat, false)
    case Some(timestamp) =>
      var minutesOfYear := conv.minuteOfTheYear(timestamp);
      var translation := Get(fact, "egoPose_translation");
      if !translation.List? then Dropped(None, false)
      else
        match ReadTranslation(translation.items)
        case Err(IndexOutOfBounds) => Escaped(IndexOutOfBounds, false)
        case Err(e) => Dropped(Some(e), false)
        case Ok(utm) =>
          var utmToLatLon := conv.coordinateConverterUtmToLatLon(utm.x, utm.y, UtmZone, utm.elevation);
          var heading := HeadingOf(conv, fact);
          // from here on the counter has advanced
          match CategoryNameOf(fact)
          case Err(e) => Dropped(Some(e), true)
          case Ok(categoryName) =>
            match VehicleStateOf(fact)
            case Err(e) => Dropped(Some(e), true)
            case Ok(vehicleState) =>
              match VisibilityLevelOf(fact)
              case Err(e) => Dropped(Some(e), true)
              case Ok(visibilityLevel) =>
                var description := GetDescriptionValuesFromSomeSource(categoryName, vehicleState, visibilityLevel);
                var position := Position(conv.convertTimestampToUtcMap(timestamp),
                                         utmToLatLon.1, utmToLatLon.0, utmToLatLon.2);
                var cits := Cits(Get(fact, "log_location"), Get(fact, "frameData_uuid"), Get(fact, "sensor_name"));
                Built(RsaMessage(msgCnt, minutesOfYear, 0, description, "01", heading, position,
                                 [Regional(4, RegExtValue(cits))]))
  }

  /** The message a record yields: the counter value it found, the minute
      of the year of its timestamp, event type 0, the ITIS codes of its
      category and vehicle state, priority "01", the heading of the sensor
      rotation, the position converted from UTM zone 52 (longitude from
      index 1, latitude from index 0), and region 4 carrying the log
      location, the frame-data uuid and the sensor name. */
  lemma AssembleRsaMessage(conv: Conversions, fact: Fact, msgCnt: int)
    requires Assembles(conv, fact)
    ensures var r := AssembleRsa(conv, fact, msgCnt);
            var m := r.message;
            var utm := ReadTranslation(Get(fact, "egoPose_translation").items).value;
            var latLon := conv.coordinateConverterUtmToLatLon(utm.x, utm.y, UtmZone, utm.elevation);
            && r.Built?
            && m.msgCnt == msgCnt
            && m.timeStamp == conv.minuteOfTheYear(EpochOf(conv, fact).value)
            && m.typeEvent == 0
            && m.description == ItisRsaCodeGen(CategoryNameOf(fact).value, VehicleStateOf(fact).value)
            && m.priority == "01"
            && m.heading == HeadingOf(conv, fact)
            && m.position == Position(conv.convertTimestampToUtcMap(EpochOf(conv, fact).value),
                                      latLon.1, latLon.0, latLon.2)
            && m.regional == [Regional(4, RegExtValue(Cits(Get(fact, "log_location"),
                                                           Get(fact, "frameData_uuid"),
                                                           Get(fact, "sensor_name"))))]
  {
  }

  /** The loop body as a step of the shared loop. */
  function RsaStep(conv: Conversions): (Fact, int) -> RsaOutcome {
    (fact, msgCnt) => AssembleRsa(conv, fact, msgCnt)
  }

  /** The loop of `createRsaMessage` over the records, from counter `msgCnt`. */
  function RsaRun(conv: Conversions, facts: seq<Fact>, msgCnt: int): Batch<RsaMessage> {
    Run(RsaStep(conv), facts, msgCnt)
  }

  /** `createRsaMessage`: joins the data store, then runs the loop over
      the records read back as maps, consuming the creator's counter. */
  method CreateRsaMessage(counter: Counter, conv: Conversions, store: UuidMatching.EntityStore)
    returns (messages: Result<seq<RsaMessage>>)
    requires counter.Valid()
    modifies counter
    ensures counter.Valid()
    ensures UuidMatching.Join(store).Err? ==>
              messages == Err(UuidMatching.Join(store).error) && counter.msgCnt == old(counter.msgCnt)
    ensures UuidMatching.Join(store).Ok? ==>
              var run := RsaRun(conv, UuidMatching.Facts(UuidMatching.Join(store).value), old(counter.msgCnt));
              messages == run.messages && counter.msgCnt == run.msgCnt
  {
    var relatedUuids := UuidMatching.UuidPut(store);
    if relatedUuids.Err? {
      return Err(relatedUuids.error);
    }
    messages := counter.RunBatch(RsaStep(conv), UuidMatching.Facts(relatedUuids.value));
  }

  // ----- Properties of the batch -----

  /** The counter stays a `DE_MsgCount`; the output holds at most one
      message per record; and the batch fails exactly when some record
      raises an exception the loop does not catch. */
  lemma RsaRunBounds(conv: Conversions, facts: seq<Fact>, msgCnt: int)
    requires 0 <= msgCnt < MsgCountModulus
    ensures var run := RsaRun(conv, facts, msgCnt);
            && 0 <= run.msgCnt < MsgCountModulus
            && (run.messages.Ok? ==> |run.messages.value| <= |facts|)
            && (run.messages.Err? <==> exists i :: 0 <= i < |facts| && Escapes(conv, facts[i]))
  {
    RunBounds(RsaStep(conv), facts, msgCnt);
    RunFailsIffEscape(RsaStep(conv), fact => Escapes(conv, fact), facts, msgCnt);
  }

  /** Records whose reads all succeed each yield a message carrying the
      counter value they find, whatever it is. */
  lemma AllAssembleBuilt(conv: Conversions, facts: seq<Fact>)
    requires forall i :: 0 <= i < |facts| ==> Assembles(conv, facts[i])
    ensures forall i, k :: 0 <= i < |facts| ==>
              RsaStep(conv)(facts[i], k).Built? && RsaStep(conv)(facts[i], k).message.msgCnt == k
  {
  }

  /** When every record yields a message, the output has one message per
      record, in order, numbered consecutively modulo 128 from the counter
      the batch starts with, and the counter ends `|facts|` steps on. */
  lemma ConsecutiveMessageCounts(conv: Conversions, facts: seq<Fact>, msgCnt: int)
    requires 0 <= msgCnt < MsgCountModulus
    requires forall i :: 0 <= i < |facts| ==> Assembles(conv, facts[i])
    ensures var run := RsaRun(conv, facts, msgCnt);
            && run.messages.Ok?
            && |run.messages.value| == |facts|
            && run.msgCnt == (msgCnt + |facts|) % MsgCountModulus
            && forall i :: 0 <= i < |facts| ==> run.messages.value[i].msgCnt == (msgCnt + i) % MsgCountModulus
  {
    AllAssembleBuilt(conv, facts);
    RunConsecutive(RsaStep(conv), MsgCntOf, facts, msgCnt);
  }

  /** The exact condition for consecutive numbering: when no record escapes
      and none is dropped after the increment, the messages are numbered
      consecutively modulo 128 by their place in the output, records skipped
      before the increment (a timestamp of the right form but a translation
      that is no list, or a caught exception while reading it) leaving no
      gap, and the counter ends one step past the last message. */
  lemma ConsecutiveAmongMessages(conv: Conversions, facts: seq<Fact>, msgCnt: int)
    requires 0 <= msgCnt < MsgCountModulus
    requires forall i :: 0 <= i < |facts| ==> !Escapes(conv, facts[i]) && !DroppedAfterIncrement(conv, facts[i])
    ensures var run := RsaRun(conv, facts, msgCnt);
            && run.messages.Ok?
            && run.msgCnt == (msgCnt + |run.messages.value|) % MsgCountModulus
            && forall j :: 0 <= j < |run.messages.value| ==> run.messages.value[j].msgCnt == (msgCnt + j) % MsgCountModulus
  {
    forall i, k | 0 <= i < |facts|
      ensures && !RsaStep(conv)(facts[i], k).Escaped?
              && (RsaStep(conv)(facts[i], k).Dropped? ==> !RsaStep(conv)(facts[i], k).counterUsed)
              && (RsaStep(conv)(facts[i], k).Built? ==> MsgCntOf(RsaStep(conv)(facts[i], k).message) == k)
    {
      var r := AssembleRsa(conv, facts[i], k);
    }
    RunNumbersByMessage(RsaStep(conv), MsgCntOf, facts, msgCnt);
  }

  /** A record skipped before the increment leaves no gap: the record after
      it gets the counter value the batch starts with. */
  lemma SkippedRecordKeepsCounter(conv: Conversions, skipped: Fact, next: Fact, msgCnt: int)
    requires 0 <= msgCnt < MsgCountModulus
    requires EpochOf(conv, skipped).Some? && !Get(skipped, "egoPose_translation").List?
    requires Assembles(conv, next)
    ensures var run := RsaRun(conv, [skipped, next], msgCnt);
            && run.messages.Ok?
            && |run.messages.value| == 1
            && run.messages.value[0].msgCnt == msgCnt
            && run.msgCnt == (msgCnt + 1) % MsgCountModulus
  {
    RunPair(RsaStep(conv), skipped, next, msgCnt);
  }

  /** A record that carries neither a category name nor an annotation
      attribute nor a visibility level still yields a message when its
      timestamp and translation read: the "0" defaults match no ITIS label,
      so its description is empty, and without a rotation list its heading
      is "0". */
  lemma AbsentValuesDefault(conv: Conversions, fact: Fact, msgCnt: int)
    requires EpochOf(conv, fact).Some? && Get(fact, "egoPose_translation").List?
    requires ReadTranslation(Get(fact, "egoPose_translation").items).Ok?
    requires "instance_categoryName" !in fact && "frameAnnotation_attribute" !in fact
    requires "frameAnnotation_visibilityLevel" !in fact && "sensor_rotation" !in fact
    ensures var r := AssembleRsa(conv, fact, msgCnt);
            && r.Built?
            && r.message.description == []
            && r.message.heading == "0"
  {
  }

  /** Running the records in two parts, the second from the counter the
      first leaves, is running them all: the output keeps their order. */
  lemma RsaRunAppend(conv: Conversions, a: seq<Fact>, b: seq<Fact>, msgCnt: int)
    ensures var first := RsaRun(conv, a, msgCnt);
            var second := RsaRun(conv, b, first.msgCnt);
            RsaRun(conv, a + b, msgCnt) ==
              if first.messages.Err? then first
              else if second.messages.Err? then second
              else Batch(Ok(first.messages.value + second.messages.value), second.msgCnt)
  {
    RunAppend(RsaStep(conv), a, b, msgCnt);
  }

  /** A record that fails a cast after the counter has advanced produces no
      message but still consumes a counter value: the message of the record
      after it is numbered two steps on, not one. */
  lemma DroppedRecordConsumesCounter(conv: Conversions, dropped: Fact, next: Fact, msgCnt: int)
    requires 0 <= msgCnt < MsgCountModulus
    requires DroppedAfterIncrement(conv, dropped)
    requires Assembles(conv, next)
    ensures var run := RsaRun(conv, [dropped, next], msgCnt);
            && run.messages.Ok?
            && |run.messages.value| == 1
            && run.messages.value[0].msgCnt == (msgCnt + 1) % MsgCountModulus
            && run.msgCnt == (msgCnt + 2) % MsgCountModulus
  {
    RunPair(RsaStep(conv), dropped, next, msgCnt);
    CounterStep(msgCnt + 1, (msgCnt + 1) % MsgCountModulus);
  }

  /** A concrete instance: a record whose category name is an integer
      reaches the counter and then fails its cast, and a plain record next
      to it assembles, so after the pair the counter is 2 and the one
      message is numbered 1, not 0. */
  lemma CounterAdvancesWithoutMessage(conv: Conversions)
    ensures var translation := List([Dbl(1.0), Dbl(2.0), Dbl(3.0)]);
            var badCategory := map["egoPose_timestamp" := Str(""), "egoPose_translation" := translation,
                                   "instance_categoryName" := Int(5)];
            var plain := map["egoPose_timestamp" := Str(""), "egoPose_translation" := translation];
            && DroppedAfterIncrement(conv, badCategory)
            && CategoryNameOf(badCategory) == Err(ClassCast)
            && Assembles(conv, plain)
  {
  }
}
