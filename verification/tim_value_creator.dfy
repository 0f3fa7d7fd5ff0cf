/** The TravelerInformation assembler: one TIM payload (the
    TravelerInformation message of SAE J2735) per joined scene record, with
    its own rolling `DE_MsgCount` (0..127), a two-node path at the
    vehicle's position and a free-text advisory. Nothing is caught inside
    its loop: the first exception any record raises ends the whole batch. */
module TimValueCreator {
  import opened Values
  import opened MessageLoop
  import UuidMatching

  const UtmZone: int := 52

  /** The factor that packs the (year, offset) pair into one timestamp. */
  const YearScale: int := 1000000

  datatype NodeLatLon = NodeLatLon(lon: int, lat: int)
  datatype Delta = Delta(nodeLatLon: NodeLatLon)    // key "node-LatLon"
  datatype Node = Node(delta: Delta)
  datatype Ll = Ll(nodes: seq<Node>)
  datatype Offset = Offset(ll: Ll)
  datatype Path = Path(offset: Offset)
  datatype Description = Description(path: Path)
  datatype Anchor = Anchor(lat: int, long: int, elevation: int)
  datatype Region = Region(anchor: Anchor, direction: string, description: Description)
  datatype MsgId = MsgId(furtherInfoID: string)
  datatype Item = Item(text: string)
  datatype ItemWrapper = ItemWrapper(item: Item)
  datatype Content = Content(advisory: seq<ItemWrapper>)

  /** One data frame, its fields in insertion order (the last three are put
      after the frame is already in its list, which the serialised message
      shows all the same). */
  datatype DataFrame = DataFrame(
    sspTimRights: int,
    frameType: string,
    msgId: MsgId,
    startYear: int,
    startTime: int,
    regions: seq<Region>,
    sspMsgRights1: int,
    sspMsgRights2: int,
    content: Content,
    duratonTime: int,
    priority: int,
    sspLocationRights: int)

  datatype Cit = Cit(text: seq<string>, subtext: seq<Value>, stopID: Value)
  datatype RegExtValue = RegExtValue(cits: seq<Cit>)
  datatype Regional = Regional(regionId: int, regExtValue: RegExtValue)

  /** The TIM payload, its fields in insertion order. */
  datatype TimMessage = TimMessage(msgCnt: int, timeStamp: int, dataFrames: seq<DataFrame>, regional: seq<Regional>)

  function MsgCntOf(m: TimMessage): int {
    m.msgCnt
  }

  // ----- One record -----

  /** The packed timestamp: the year times 1000000 plus the offset into it. */
  function CombinedTimestamp(year: int, offset: int): int {
    year * YearScale + offset
  }

  /** The packed timestamp unpacks to its parts when the offset is below the
      scale, and two 32-bit parts never overflow the Java `long` it is
      computed in. */
  lemma CombinedTimestampSplits(year: int, offset: int)
    ensures 0 <= offset < YearScale ==>
              CombinedTimestamp(year, offset) / YearScale == year && CombinedTimestamp(year, offset) % YearScale == offset
    ensures IsInt32(year) && IsInt32(offset) ==>
              -0x8000_0000_0000_0000 <= CombinedTimestamp(year, offset) < 0x8000_0000_0000_0000
  {
    if IsInt32(year) && IsInt32(offset) {
      assert -0x8000_0000 * YearScale <= year * YearScale <= 0x7FFF_FFFF * YearScale;
    }
  }

  /** `egoPose_timestamp.toString()`: a null timestamp throws. */
  function TimestampStringOf(conv: Conversions, fact: Fact): Result<string> {
    var timestamp := Get(fact, "egoPose_timestamp");
    if timestamp.Null? then Err(NullPointer) else Ok(JavaString(conv, timestamp))
  }

  /** `(List<Double>) egoPose_translation` and its first three elements: a
      null translation throws on the first read, one that is no list fails
      the cast. */
  function TranslationOf(fact: Fact): (r: Result<Utm>)
    ensures Get(fact, "egoPose_translation").Null? ==> r == Err(NullPointer)
    ensures Get(fact, "egoPose_translation").List? ==> r == ReadTranslation(Get(fact, "egoPose_translation").items)
    ensures !Get(fact, "egoPose_translation").Null? && !Get(fact, "egoPose_translation").List? ==> r == Err(ClassCast)
  {
    var translation := Get(fact, "egoPose_translation");
    if translation.Null? then Err(NullPointer)
    else if translation.List? then ReadTranslation(translation.items)
    else Err(ClassCast)
  }

  /** The cast `(List<Double>) egoPose_rotation`: null and lists pass. */
  predicate RotationCasts(fact: Fact) {
    Get(fact, "egoPose_rotation").Null? || Get(fact, "egoPose_rotation").List?
  }

  /** `(Map<String, Object>) frameAnnotation_attribute`, then read: a value
      that is no map fails the cast, a null one throws at the read. */
  function AttributeOf(fact: Fact): Result<map<string, Value>> {
    var attribute := Get(fact, "frameAnnotation_attribute");
    if attribute.Obj? then Ok(attribute.fields)
    else if attribute.Null? then Err(NullPointer)
    else Err(ClassCast)
  }

  /** The advisory text: category name, vehicle state, scenario names and
      visibility level, each as string concatenation renders it (null as
      "null"), separated by commas. */
  function AdvisoryText(conv: Conversions, fact: Fact, attribute: map<string, Value>): string {
    JavaString(conv, Get(fact, "instance_categoryName")) + "," + JavaString(conv, Get(attribute, "vehicle_state"))
    + "," + JavaString(conv, Get(fact, "dataset_scenarioNames"))
    + "," + JavaString(conv, Get(fact, "frameAnnotation_visibilityLevel"))
  }

  /** One node of the path, at the converted position. */
  function PathNode(latLon: LatLonElevation): Node {
    Node(Delta(NodeLatLon(latLon.1, latLon.0)))
  }

  /** The region: anchored at the converted position, heading `direction`,
      and a path of two nodes at that same position. */
  function RegionOf(latLon: LatLonElevation, direction: string): Region {
    var node := PathNode(latLon);
    Region(Anchor(latLon.0, latLon.1, latLon.2), direction, Description(Path(Offset(Ll([node, node])))))
  }

  function DataFrameOf(year: int, offset: int, region: Region, text: string): DataFrame {
    DataFrame(0, "advisory", MsgId("0000"), year, offset, [region], 0, 0,
              Content([ItemWrapper(Item(text))]), 0, 2, 0)
  }

  function RegionalOf(conv: Conversions, fact: Fact): Regional {
    Regional(4, RegExtValue([Cit([JavaString(conv, Get(fact, "sensor_name"))],
                                 [Get(fact, "frameData_uuid")],
                                 Get(fact, "log_location"))]))
  }

  /** The reads before the counter advances all succeed. */
  predicate ReachesCounter(conv: Conversions, fact: Fact) {
    TimestampStringOf(conv, fact).Ok? && TranslationOf(fact).Ok? && RotationCasts(fact)
  }

  /** The records that yield a message: every read succeeds. */
  predicate Assembles(conv: Conversions, fact: Fact) {
    ReachesCounter(conv, fact) && AttributeOf(fact).Ok?
  }

  /** The body of the loop of `createRsaMessage` (the TIM one) for one
      record, given the counter value it finds. Nothing is dropped: a
      message exactly when every read succeeds; otherwise an exception that
      escapes, having consumed a counter value exactly when only the
      attribute failed. A null timestamp, translation or attribute throws
      NullPointerException. */
  function AssembleTim(conv: Conversions, fact: Fact, msgCnt: int): (r: Outcome<TimMessage>)
    ensures !r.Dropped?
    ensures r.Built? <==> Assembles(conv, fact)
    ensures r.Built? ==> r.message.msgCnt == msgCnt
    ensures r.Escaped? ==> (r.counterUsed <==> ReachesCounter(conv, fact))
    ensures Get(fact, "egoPose_timestamp").Null? ==> r == Escaped(NullPointer, false)
    ensures !Get(fact, "egoPose_timestamp").Null? && Get(fact, "egoPose_translation").Null? ==>
              r == Escaped(NullPointer, false)
    ensures ReachesCounter(conv, fact) && Get(fact, "frameAnnotation_attribute").Null? ==>
              r == Escaped(NullPointer, true)
    ensures ReachesCounter(conv, fact) && !Get(fact, "frameAnnotation_attribute").Null?
              && !Get(fact, "frameAnnotation_attribute").Obj? ==>
              r == Escaped(ClassCast, true)
  {
    match TimestampStringOf(conv, fact)
    case Err(e) => Escaped(e, false)
    case Ok(timestampStr) =>
      var (year, offset) := conv.convertTimestamp(timestampStr);
      var minutesOfYear := conv.minuteOfTheYear(CombinedTimestamp(year, offset));
      match TranslationOf(fact)
      case Err(e) => Escaped(e, false)
      case Ok(utm) =>
        var latLon := conv.utmToLatLon(utm.x, utm.y, UtmZone, utm.elevation);
        if !RotationCasts(fact) then Escaped(ClassCast, false)
        else
          var direction := conv.quaternionToFormattedString(Get(fact, "egoPose_rotation"));
          // from here on the counter has advanced
          match AttributeOf(fact)
          case Err(e) => Escaped(e, true)
          case Ok(attribute) =>
            var text := AdvisoryText(conv, fact, attribute);
            Built(TimMessage(msgCnt, minutesOfYear,
                             [DataFrameOf(year, offset, RegionOf(latLon, direction), text)],
                             [RegionalOf(conv, fact)]))
  }

  /** The message a record yields: the counter value it found; the minute
      of the year of the packed timestamp; one data frame whose start year
      and start time are the two parts of that timestamp, anchored at the
      position converted from UTM zone 52 (latitude index 0, longitude 1,
      elevation 2), with two path nodes at that position, the advisory
      text of the four parts and the fixed rights, type and priority; and
      region 4 carrying the sensor name, the frame-data uuid and the log
      location. */
  lemma AssembleTimMessage(conv: Conversions, fact: Fact, msgCnt: int)
    requires Assembles(conv, fact)
    ensures var r := AssembleTim(conv, fact, msgCnt);
            var m := r.message;
            var (year, offset) := conv.convertTimestamp(TimestampStringOf(conv, fact).value);
            var utm := TranslationOf(fact).value;
            var latLon := conv.utmToLatLon(utm.x, utm.y, UtmZone, utm.elevation);
            && r.Built?
            && m.msgCnt == msgCnt
            && m.timeStamp == conv.minuteOfTheYear(year * YearScale + offset)
            && |m.dataFrames| == 1
            && (var frame := m.dataFrames[0];
               && frame.sspTimRights == 0 && frame.frameType == "advisory" && frame.msgId.furtherInfoID == "0000"
               && frame.startYear == year && frame.startTime == offset
               && frame.sspMsgRights1 == 0 && frame.sspMsgRights2 == 0
               && frame.duratonTime == 0 && frame.priority == 2 && frame.sspLocationRights == 0
               && |frame.regions| == 1
               && frame.regions[0].anchor == Anchor(latLon.0, latLon.1, latLon.2)
               && frame.regions[0].direction == conv.quaternionToFormattedString(Get(fact, "egoPose_rotation"))
               && |frame.regions[0].description.path.offset.ll.nodes| == 2
               && (forall node <- frame.regions[0].description.path.offset.ll.nodes ::
                     node.delta.nodeLatLon == NodeLatLon(latLon.1, latLon.0))
               && frame.content.advisory ==
                    [ItemWrapper(Item(JavaString(conv, Get(fact, "instance_categoryName")) + ","
                                      + JavaString(conv, Get(AttributeOf(fact).value, "vehicle_state")) + ","
                                      + JavaString(conv, Get(fact, "dataset_scenarioNames")) + ","
                                      + JavaString(conv, Get(fact, "frameAnnotation_visibilityLevel"))))])
            && m.regional == [Regional(4, RegExtValue([Cit([JavaString(conv, Get(fact, "sensor_name"))],
                                                          [Get(fact, "frameData_uuid")],
                                                          Get(fact, "log_location"))]))]
  {
  }

  /** The loop body as a step of the shared loop. */
  function TimStep(conv: Conversions): (Fact, int) -> Outcome<TimMessage> {
    (fact, msgCnt) => AssembleTim(conv, fact, msgCnt)
  }

  /** The loop of the TIM `createRsaMessage` over the records, from counter `msgCnt`. */
  function TimRun(conv: Conversions, facts: seq<Fact>, msgCnt: int): Batch<TimMessage> {
    Run(TimStep(conv), facts, msgCnt)
  }

  /** The TIM `createRsaMessage`: joins the data store, then runs the loop
      over the records read back as maps, consuming the creator's counter. */
  method CreateTimMessage(counter: Counter, conv: Conversions, store: UuidMatching.EntityStore)
    returns (messages: Result<seq<TimMessage>>)
    requires counter.Valid()
    modifies counter
    ensures counter.Valid()
    ensures UuidMatching.Join(store).Err? ==>
              messages == Err(UuidMatching.Join(store).error) && counter.msgCnt == old(counter.msgCnt)
    ensures UuidMatching.Join(store).Ok? ==>
              var run := TimRun(conv, UuidMatching.Facts(UuidMatching.Join(store).value), old(counter.msgCnt));
              messages == run.messages && counter.msgCnt == run.msgCnt
  {
    var relatedUuids := UuidMatching.UuidPut(store);
    if relatedUuids.Err? {
      return Err(relatedUuids.error);
    }
    messages := counter.RunBatch(TimStep(conv), UuidMatching.Facts(relatedUuids.value));
  }

  // ----- Properties of the batch -----

  /** The loop body's contract, for every record and counter value. */
  lemma StepCases(conv: Conversions)
    ensures forall fact, k :: TimStep(conv)(fact, k).Escaped? <==> !Assembles(conv, fact)
    ensures forall fact, k :: Assembles(conv, fact) ==>
              TimStep(conv)(fact, k).Built? && TimStep(conv)(fact, k).message.msgCnt == k
  {
  }

  /** No record is contained: the batch fails exactly when some record fails
      a read, and otherwise holds one message per record, in order,
      numbered consecutively modulo 128 from the counter it starts with. */
  lemma TimRunAllOrNothing(conv: Conversions, facts: seq<Fact>, msgCnt: int)
    requires 0 <= msgCnt < MsgCountModulus
    ensures var run := TimRun(conv, facts, msgCnt);
            && 0 <= run.msgCnt < MsgCountModulus
            && (run.messages.Err? <==> exists i :: 0 <= i < |facts| && !Assembles(conv, facts[i]))
            && (run.messages.Ok? ==>
                  && |run.messages.value| == |facts|
                  && run.msgCnt == (msgCnt + |facts|) % MsgCountModulus
                  && forall i :: 0 <= i < |facts| ==> run.messages.value[i].msgCnt == (msgCnt + i) % MsgCountModulus)
  {
    StepCases(conv);
    RunBounds(TimStep(conv), facts, msgCnt);
    RunFailsIffEscape(TimStep(conv), fact => !Assembles(conv, fact), facts, msgCnt);
    if TimRun(conv, facts, msgCnt).messages.Ok? {
      RunConsecutive(TimStep(conv), MsgCntOf, facts, msgCnt);
    }
  }

  /** Running the records in two parts, the second from the counter the
      first leaves, is running them all: the output keeps their order. */
  lemma TimRunAppend(conv: Conversions, a: seq<Fact>, b: seq<Fact>, msgCnt: int)
    ensures var first := TimRun(conv, a, msgCnt);
            var second := TimRun(conv, b, first.msgCnt);
            TimRun(conv, a + b, msgCnt) ==
              if first.messages.Err? then first
              else if second.messages.Err? then second
              else Batch(Ok(first.messages.value + second.messages.value), second.msgCnt)
  {
    RunAppend(TimStep(conv), a, b, msgCnt);
  }

  /** A record without an attribute aborts the whole batch, discarding the
      message already built for the record before it, and both records
      have consumed a counter value. */
  lemma NullAttributeAbortsBatch(conv: Conversions, good: Fact, noAttribute: Fact, msgCnt: int)
    requires 0 <= msgCnt < MsgCountModulus
    requires Assembles(conv, good)
    requires ReachesCounter(conv, noAttribute) && Get(noAttribute, "frameAnnotation_attribute").Null?
    ensures TimRun(conv, [good, noAttribute], msgCnt) == Batch(Err(NullPointer), (msgCnt + 2) % MsgCountModulus)
  {
    RunPair(TimStep(conv), good, noAttribute, msgCnt);
    assert AssembleTim(conv, noAttribute, (msgCnt + 1) % MsgCountModulus) == Escaped(NullPointer, true);
    CounterStep(msgCnt + 1, (msgCnt + 1) % MsgCountModulus);
  }

  /** A concrete instance: a record with an empty attribute map assembles,
      and the same record without the attribute reaches the counter and
      has a null attribute. */
  lemma NullAttributeExample(conv: Conversions)
    ensures var translation := List([Dbl(1.0), Dbl(2.0), Dbl(3.0)]);
            var good := map["egoPose_timestamp" := Str("t"), "egoPose_translation" := translation,
                            "frameAnnotation_attribute" := Obj(map[])];
            var noAttribute := map["egoPose_timestamp" := Str("t"), "egoPose_translation" := translation];
            && Assembles(conv, good)
            && ReachesCounter(conv, noAttribute) && Get(noAttribute, "frameAnnotation_attribute").Null?
  {
  }
}
