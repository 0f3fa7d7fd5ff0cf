/** The join engine: uuid-keyed indexes over the entity lists and, for
    every FrameData and each of its annotations whose foreign keys all
    resolve, one flat record whose keys are "<entity>_<field>". */
module UuidMatching {
  import opened Values

  datatype Dataset = Dataset(uuid: string, logUuid: string, scenarioNames: Value)
  datatype EgoPose = EgoPose(uuid: string, timestamp: Value, translation: Value, rotation: Value)
  datatype Frame = Frame(uuid: string, datasetUuid: string)
  datatype FrameData = FrameData(uuid: string, frameUuid: string, egoPoseUuid: string, sensorUuid: string)
  datatype FrameAnnotation =
    FrameAnnotation(uuid: string, frameDataUuid: string, instanceUuid: string, attribute: Value, visibilityLevel: Value)
  datatype Instance = Instance(uuid: string, categoryName: Value)
  datatype Log = Log(uuid: string, location: Value)
  datatype Sensor = Sensor(uuid: string, name: Value, rotation: Value)

  /** The eight entity lists of the data store, in load order. */
  datatype EntityStore = EntityStore(
    datasets: seq<Dataset>,
    egoPoses: seq<EgoPose>,
    frames: seq<Frame>,
    frameAnnotations: seq<FrameAnnotation>,
    instances: seq<Instance>,
    logs: seq<Log>,
    sensors: seq<Sensor>,
    frameData: seq<FrameData>)

  function DatasetUuid(d: Dataset): string { d.uuid }
  function EgoPoseUuid(e: EgoPose): string { e.uuid }
  function FrameUuid(f: Frame): string { f.uuid }
  function InstanceUuid(i: Instance): string { i.uuid }
  function LogUuid(l: Log): string { l.uuid }
  function SensorUuid(s: Sensor): string { s.uuid }

  /** `createMapFromList`: uuid to entity; when a uuid repeats, the
      entity listed first is kept (the merge function `(a, b) -> a`). */
  function CreateMapFromList<T>(list: seq<T>, uuidOf: T -> string): (index: map<string, T>)
    ensures |index| <= |list|
    ensures forall u :: u in index ==> uuidOf(index[u]) == u
  {
    if list == [] then map[]
    else CreateMapFromList(list[1..], uuidOf)[uuidOf(list[0]) := list[0]]
  }

  /** Every listed entity's uuid is a key, and every key maps to a listed
      entity whose own uuid is that key. */
  lemma {:induction false} CreateMapFromListKeys<T>(list: seq<T>, uuidOf: T -> string)
    ensures forall i :: 0 <= i < |list| ==> uuidOf(list[i]) in CreateMapFromList(list, uuidOf)
    ensures forall u :: u in CreateMapFromList(list, uuidOf) ==>
              uuidOf(CreateMapFromList(list, uuidOf)[u]) == u && CreateMapFromList(list, uuidOf)[u] in list
  {
    if list != [] {
      var tail := list[1..];
      CreateMapFromListKeys(tail, uuidOf);
      assert forall i :: 1 <= i < |list| ==> list[i] == tail[i - 1];
      forall u | u in CreateMapFromList(tail, uuidOf) ensures CreateMapFromList(tail, uuidOf)[u] in list {
        var k :| 0 <= k < |tail| && tail[k] == CreateMapFromList(tail, uuidOf)[u];
        assert list[k + 1] == tail[k];
      }
    }
  }

  /** First wins: an entity whose uuid no earlier entity has is the one
      the index holds for that uuid. */
  lemma {:induction false} CreateMapFromListFirstWins<T>(list: seq<T>, uuidOf: T -> string, i: nat)
    requires i < |list|
    requires forall j :: 0 <= j < i ==> uuidOf(list[j]) != uuidOf(list[i])
    ensures uuidOf(list[i]) in CreateMapFromList(list, uuidOf)
    ensures CreateMapFromList(list, uuidOf)[uuidOf(list[i])] == list[i]
  {
    if i > 0 {
      var tail := list[1..];
      assert tail[i - 1] == list[i];
      forall j | 0 <= j < i - 1 ensures uuidOf(tail[j]) != uuidOf(tail[i - 1]) {
        assert tail[j] == list[j + 1];
      }
      CreateMapFromListFirstWins(tail, uuidOf, i - 1);
      assert uuidOf(list[0]) != uuidOf(list[i]);
    }
  }

  /** A later duplicate never displaces an earlier entity: the index holds,
      for the uuid of `list[i]`, the entity at the first position with it. */
  lemma CreateMapFromListIgnoresDuplicates<T>(list: seq<T>, uuidOf: T -> string, first: nat, later: nat)
    requires first < later < |list|
    requires uuidOf(list[first]) == uuidOf(list[later])
    requires forall j :: 0 <= j < first ==> uuidOf(list[j]) != uuidOf(list[first])
    ensures uuidOf(list[later]) in CreateMapFromList(list, uuidOf)
    ensures CreateMapFromList(list, uuidOf)[uuidOf(list[later])] == list[first]
  {
    CreateMapFromListFirstWins(list, uuidOf, first);
  }

  /** The six indexes the join looks entities up in. */
  datatype Indexes = Indexes(
    datasets: map<string, Dataset>,
    egoPoses: map<string, EgoPose>,
    frames: map<string, Frame>,
    instances: map<string, Instance>,
    logs: map<string, Log>,
    sensors: map<string, Sensor>)

  function BuildIndexes(store: EntityStore): Indexes {
    Indexes(
      CreateMapFromList(store.datasets, DatasetUuid),
      CreateMapFromList(store.egoPoses, EgoPoseUuid),
      CreateMapFromList(store.frames, FrameUuid),
      CreateMapFromList(store.instances, InstanceUuid),
      CreateMapFromList(store.logs, LogUuid),
      CreateMapFromList(store.sensors, SensorUuid))
  }

  // ----- Records: explicit field lists in place of reflection -----

  type Field = (string, Value)
  /** An insertion-ordered map (a LinkedHashMap) as its list of entries. */
  type Record = seq<Field>

  function Names(fields: seq<Field>): (names: seq<string>)
    ensures |names| == |fields|
    ensures forall i :: 0 <= i < |fields| ==> names[i] == fields[i].0
  {
    if fields == [] then [] else [fields[0].0] + Names(fields[1..])
  }

  const DatasetSchema: seq<string> := ["uuid", "logUuid", "scenarioNames"]
  const EgoPoseSchema: seq<string> := ["uuid", "timestamp", "translation", "rotation"]
  const FrameSchema: seq<string> := ["uuid", "datasetUuid"]
  const FrameDataSchema: seq<string> := ["uuid", "frameUuid", "egoPoseUuid", "sensorUuid"]
  const FrameAnnotationSchema: seq<string> :=
    ["uuid", "frameDataUuid", "instanceUuid", "attribute", "visibilityLevel"]
  const InstanceSchema: seq<string> := ["uuid", "categoryName"]
  const LogSchema: seq<string> := ["uuid", "location"]
  const SensorSchema: seq<string> := ["uuid", "name", "rotation"]

  /** The declared fields of an entity: each name of its schema with the
      entity's value for it. */
  function Entries(names: seq<string>, values: seq<Value>): (r: seq<Field>)
    requires |names| == |values|
    ensures Names(r) == names
  {
    if names == [] then []
    else
      var rest := Entries(names[1..], values[1..]);
      assert ([(names[0], values[0])] + rest)[1..] == rest;
      [(names[0], values[0])] + rest
  }

  function DatasetFields(d: Dataset): seq<Field> {
    Entries(DatasetSchema, [Str(d.uuid), Str(d.logUuid), d.scenarioNames])
  }

  function EgoPoseFields(e: EgoPose): seq<Field> {
    Entries(EgoPoseSchema, [Str(e.uuid), e.timestamp, e.translation, e.rotation])
  }

  function FrameFields(f: Frame): seq<Field> {
    Entries(FrameSchema, [Str(f.uuid), Str(f.datasetUuid)])
  }

  function FrameDataFields(fd: FrameData): seq<Field> {
    Entries(FrameDataSchema, [Str(fd.uuid), Str(fd.frameUuid), Str(fd.egoPoseUuid), Str(fd.sensorUuid)])
  }

  function FrameAnnotationFields(fa: FrameAnnotation): seq<Field> {
    Entries(FrameAnnotationSchema,
            [Str(fa.uuid), Str(fa.frameDataUuid), Str(fa.instanceUuid), fa.attribute, fa.visibilityLevel])
  }

  function InstanceFields(i: Instance): seq<Field> {
    Entries(InstanceSchema, [Str(i.uuid), i.categoryName])
  }

  function LogFields(l: Log): seq<Field> {
    Entries(LogSchema, [Str(l.uuid), l.location])
  }

  function SensorFields(s: Sensor): seq<Field> {
    Entries(SensorSchema, [Str(s.uuid), s.name, s.rotation])
  }

  /** The key `prefix + "_" + name` of every name, in order. */
  function PrefixNames(prefix: string, names: seq<string>): seq<string> {
    if names == [] then [] else [prefix + "_" + names[0]] + PrefixNames(prefix, names[1..])
  }

  /** Specification of `createPrefixedMap`. */
  function Prefixed(prefix: string, fields: seq<Field>): Record {
    if fields == [] then [] else [(prefix + "_" + fields[0].0, fields[0].1)] + Prefixed(prefix, fields[1..])
  }

  lemma {:induction false} PrefixedNames(prefix: string, fields: seq<Field>)
    ensures Names(Prefixed(prefix, fields)) == PrefixNames(prefix, Names(fields))
  {
    if fields != [] {
      PrefixedNames(prefix, fields[1..]);
      assert Names(fields)[1..] == Names(fields[1..]);
    }
  }

  lemma {:induction false} NamesAppend(a: seq<Field>, b: seq<Field>)
    ensures Names(a + b) == Names(a) + Names(b)
  {
  }

  /** `createPrefixedMap`: one entry per declared field, keyed
      `prefix + "_" + field name`, in declaration order. */
  method CreatePrefixedMap(fields: seq<Field>, prefix: string) returns (prefixedMap: Record)
    ensures prefixedMap == Prefixed(prefix, fields)
    ensures |prefixedMap| == |fields|
    ensures forall k :: 0 <= k < |fields| ==> prefixedMap[k] == (prefix + "_" + fields[k].0, fields[k].1)
  {
    prefixedMap := [];
    var k := 0;
    while k < |fields|
      invariant 0 <= k <= |fields|
      invariant prefixedMap + Prefixed(prefix, fields[k..]) == Prefixed(prefix, fields)
      invariant |prefixedMap| == k
      invariant forall m :: 0 <= m < k ==> prefixedMap[m] == (prefix + "_" + fields[m].0, fields[m].1)
    {
      assert fields[k..][1..] == fields[k + 1..];
      prefixedMap := prefixedMap + [(prefix + "_" + fields[k].0, fields[k].1)];
      k := k + 1;
    }
  }

  /** The eight entities one fully resolved (FrameData, FrameAnnotation)
      pair brings together. */
  datatype Joined = Joined(dataset: Dataset, egoPose: EgoPose, sensor: Sensor, frame: Frame,
                           frameData: FrameData, annotation: FrameAnnotation, instance: Instance, log: Log)

  /** One entity of a joined pair as `createPrefixedMap` sees it: its
      prefix, its declared field names and how to read its fields. */
  datatype Part = Part(prefix: string, schema: seq<string>, fields: Joined -> seq<Field>)

  /** The order in which the eight prefixed maps are merged. */
  const MergeOrder: seq<Part> := [
    Part("dataset", DatasetSchema, (j: Joined) => DatasetFields(j.dataset)),
    Part("egoPose", EgoPoseSchema, (j: Joined) => EgoPoseFields(j.egoPose)),
    Part("sensor", SensorSchema, (j: Joined) => SensorFields(j.sensor)),
    Part("frame", FrameSchema, (j: Joined) => FrameFields(j.frame)),
    Part("frameData", FrameDataSchema, (j: Joined) => FrameDataFields(j.frameData)),
    Part("frameAnnotation", FrameAnnotationSchema, (j: Joined) => FrameAnnotationFields(j.annotation)),
    Part("instance", InstanceSchema, (j: Joined) => InstanceFields(j.instance)),
    Part("log", LogSchema, (j: Joined) => LogFields(j.log))]

  /** The prefixed maps of the first `n` parts, merged. */
  function MergedUpTo(j: Joined, n: nat): Record
    requires n <= |MergeOrder|
  {
    if n == 0 then [] else MergedUpTo(j, n - 1) + Prefixed(MergeOrder[n - 1].prefix, MergeOrder[n - 1].fields(j))
  }

  /** The record of a joined pair: the prefixed fields of its eight
      entities, in merge order. */
  function Flatten(j: Joined): Record {
    MergedUpTo(j, |MergeOrder|)
  }

  /** The keys of the first `n` parts. */
  function KeysUpTo(n: nat): seq<string>
    requires n <= |MergeOrder|
  {
    if n == 0 then [] else KeysUpTo(n - 1) + PrefixNames(MergeOrder[n - 1].prefix, MergeOrder[n - 1].schema)
  }

  /** The keys every record has, whatever the entities: the eight field
      lists prefixed with their entity name, merged in order. */
  function SchemaKeys(): seq<string> {
    KeysUpTo(|MergeOrder|)
  }

  /** Each part reads exactly its declared fields. */
  lemma PartSchema(j: Joined, n: nat)
    requires n < |MergeOrder|
    ensures Names(MergeOrder[n].fields(j)) == MergeOrder[n].schema
  {
  }

  lemma {:induction false} MergedUpToKeys(j: Joined, n: nat)
    requires n <= |MergeOrder|
    ensures Names(MergedUpTo(j, n)) == KeysUpTo(n)
  {
    if n > 0 {
      var part := MergeOrder[n - 1];
      MergedUpToKeys(j, n - 1);
      PartSchema(j, n - 1);
      PrefixedSchema(part.prefix, part.fields(j), part.schema);
      NamesAppend(MergedUpTo(j, n - 1), Prefixed(part.prefix, part.fields(j)));
    }
  }

  /** Every record has the same keys, whatever the entities. */
  lemma FlattenKeys(j: Joined)
    ensures Names(Flatten(j)) == SchemaKeys()
  {
    MergedUpToKeys(j, |MergeOrder|);
  }

  /** The prefixed names of an entity's fields are its prefixed schema. */
  lemma PrefixedSchema(prefix: string, fields: seq<Field>, schema: seq<string>)
    requires Names(fields) == schema
    ensures Names(Prefixed(prefix, fields)) == PrefixNames(prefix, schema)
  {
    PrefixedNames(prefix, fields);
  }

  /** The map Jackson reads back from a serialised record: each key with
      its value (a repeated key would keep its last value). */
  function ToFact(record: Record): Fact {
    if record == [] then map[]
    else ToFact(record[..|record| - 1])[record[|record| - 1].0 := record[|record| - 1].1]
  }

  /** The records of the join, each read back as a map. */
  function Facts(records: seq<Record>): (facts: seq<Fact>)
    ensures |facts| == |records|
    ensures forall i :: 0 <= i < |records| ==> facts[i] == ToFact(records[i])
  {
    seq(|records|, i requires 0 <= i < |records| => ToFact(records[i]))
  }


  /** `f` applied to every element, in order. */
  function MapSeq<A, B>(f: A -> B, s: seq<A>): (r: seq<B>)
    ensures |r| == |s|
  {
    if s == [] then [] else MapSeq(f, s[..|s| - 1]) + [f(s[|s| - 1])]
  }

  lemma {:induction false} MapSeqIndex<A, B>(f: A -> B, s: seq<A>, k: nat)
    requires k < |s|
    ensures MapSeq(f, s)[k] == f(s[k])
  {
    if k < |s| - 1 {
      MapSeqIndex(f, s[..|s| - 1], k);
    }
  }

  lemma {:induction false} MapSeqAppend<A, B>(f: A -> B, a: seq<A>, b: seq<A>)
    ensures MapSeq(f, a + b) == MapSeq(f, a) + MapSeq(f, b)
  {
    if b == [] {
      assert a + b == a;
    } else {
      var n := |b| - 1;
      assert (a + b)[..|a + b| - 1] == a + b[..n];
      assert (a + b)[|a + b| - 1] == b[n];
      MapSeqAppend(f, a, b[..n]);
    }
  }

  /** The records of a list of joined pairs, in order. */
  function Records(js: seq<Joined>): seq<Record> {
    MapSeq(Flatten, js)
  }

  lemma RecordsStep(before: seq<Joined>, extra: seq<Joined>, records: seq<Record>, added: seq<Record>)
    requires records == Records(before) && added == Records(extra)
    ensures records + added == Records(before + extra)
  {
    MapSeqAppend(Flatten, before, extra);
  }

  // ----- The join, as a specification -----

  /** Frame, dataset, log, egoPose and sensor of `fd` all resolve. */
  predicate ChainResolves(ix: Indexes, fd: FrameData) {
    && fd.frameUuid in ix.frames
    && ix.frames[fd.frameUuid].datasetUuid in ix.datasets
    && ix.datasets[ix.frames[fd.frameUuid].datasetUuid].logUuid in ix.logs
    && fd.egoPoseUuid in ix.egoPoses
    && fd.sensorUuid in ix.sensors
  }

  /** The pair (fd, fa) yields a record: fa belongs to fd and every hop resolves. */
  predicate Resolves(ix: Indexes, fd: FrameData, fa: FrameAnnotation) {
    ChainResolves(ix, fd) && fa.frameDataUuid == fd.uuid && fa.instanceUuid in ix.instances
  }

  /** A frame that resolves but whose dataset does not: the source
      dereferences the missing dataset. */
  predicate DanglingDataset(ix: Indexes, fd: FrameData) {
    fd.frameUuid in ix.frames && ix.frames[fd.frameUuid].datasetUuid !in ix.datasets
  }

  /** The entities a resolving pair brings together, looked up by uuid. */
  function JoinedOf(ix: Indexes, fd: FrameData, fa: FrameAnnotation): Joined
    requires Resolves(ix, fd, fa)
  {
    var frame := ix.frames[fd.frameUuid];
    var dataset := ix.datasets[frame.datasetUuid];
    Joined(dataset, ix.egoPoses[fd.egoPoseUuid], ix.sensors[fd.sensorUuid], frame, fd, fa,
           ix.instances[fa.instanceUuid], ix.logs[dataset.logUuid])
  }

  /** The pairs one FrameData forms, in the order of the annotation list. */
  function AnnotationMatches(ix: Indexes, fd: FrameData, fas: seq<FrameAnnotation>): (matches: seq<Joined>)
    ensures |matches| <= |fas|
  {
    if fas == [] then []
    else
      var last := fas[|fas| - 1];
      AnnotationMatches(ix, fd, fas[..|fas| - 1]) + (if Resolves(ix, fd, last) then [JoinedOf(ix, fd, last)] else [])
  }

  function FrameDataMatches(ix: Indexes, fas: seq<FrameAnnotation>, fd: FrameData): Result<seq<Joined>> {
    if DanglingDataset(ix, fd) then Err(NullPointer) else Ok(AnnotationMatches(ix, fd, fas))
  }

  /** The join over a list of FrameData, taken in list order; the first
      dangling dataset aborts it. */
  function JoinPrefix(ix: Indexes, fas: seq<FrameAnnotation>, fds: seq<FrameData>): (r: Result<seq<Joined>>)
    ensures r.Err? ==> r.error == NullPointer
    ensures r.Ok? ==> |r.value| <= |fds| * |fas|
  {
    if fds == [] then Ok([])
    else
      match JoinPrefix(ix, fas, fds[..|fds| - 1])
      case Err(e) => Err(e)
      case Ok(matches) =>
        match FrameDataMatches(ix, fas, fds[|fds| - 1])
        case Err(e) => Err(e)
        case Ok(more) => Ok(matches + more)
  }

  /** The records the join of a data store emits, or the exception it raises. */
  function Join(store: EntityStore): (r: Result<seq<Record>>)
    ensures r.Err? ==> r.error == NullPointer
    ensures r.Ok? ==> |r.value| <= |store.frameData| * |store.frameAnnotations|
  {
    match JoinPrefix(BuildIndexes(store), store.frameAnnotations, store.frameData)
    case Err(e) => Err(e)
    case Ok(matches) => Ok(Records(matches))
  }

  // ----- The join, as the source runs it -----

  /** The record of one resolved pair: `createPrefixedMap` of each of the
      eight entities, merged with `putAll` in merge order (the first map is
      the copy the record starts from). The record is the concatenation of
      the parts; it has the entries of the merged map as long as no key
      repeats across the eight entities, which the `<entity>_` prefixes are
      meant to ensure. */
  method MergeRecord(dataset: Dataset, egoPose: EgoPose, sensor: Sensor, frame: Frame, frameData: FrameData,
                     annotation: FrameAnnotation, instance: Instance, log: Log) returns (uuid: Record)
    ensures uuid == Flatten(Joined(dataset, egoPose, sensor, frame, frameData, annotation, instance, log))
    ensures Names(uuid) == SchemaKeys()
  {
    var j := Joined(dataset, egoPose, sensor, frame, frameData, annotation, instance, log);
    uuid := [];
    for n := 0 to |MergeOrder|
      invariant uuid == MergedUpTo(j, n)
    {
      var part := CreatePrefixedMap(MergeOrder[n].fields(j), MergeOrder[n].prefix);
      uuid := uuid + part;
    }
    FlattenKeys(j);
  }

  /** The loop of `UuidPut` over the annotations of one FrameData whose
      frame and dataset resolved: the annotations that belong to it and whose
      egoPose, sensor, log and instance all resolve give one record each. */
  method JoinAnnotations(ix: Indexes, frameData: FrameData, frame: Frame, dataset: Dataset,
                         fas: seq<FrameAnnotation>) returns (records: seq<Record>)
    requires frameData.frameUuid in ix.frames && frame == ix.frames[frameData.frameUuid]
    requires frame.datasetUuid in ix.datasets && dataset == ix.datasets[frame.datasetUuid]
    ensures records == Records(AnnotationMatches(ix, frameData, fas))
  {
    records := [];
    var j := 0;
    while j < |fas|
      invariant 0 <= j <= |fas|
      invariant records == Records(AnnotationMatches(ix, frameData, fas[..j]))
    {
      var frameAnnotation := fas[j];
      AnnotationMatchesStep(ix, frameData, fas, j);
      var added := AnnotationRecord(ix, frameData, frame, dataset, frameAnnotation);
      RecordsStep(AnnotationMatches(ix, frameData, fas[..j]),
                  if Resolves(ix, frameData, frameAnnotation) then [JoinedOf(ix, frameData, frameAnnotation)] else [],
                  records, added);
      records := records + added;
      j := j + 1;
    }
    assert fas[..|fas|] == fas;
  }

  /** The body of that loop for one annotation: its record when it belongs
      to the FrameData and egoPose, sensor, log and instance resolve. */
  method AnnotationRecord(ix: Indexes, frameData: FrameData, frame: Frame, dataset: Dataset,
                          frameAnnotation: FrameAnnotation) returns (added: seq<Record>)
    requires frameData.frameUuid in ix.frames && frame == ix.frames[frameData.frameUuid]
    requires frame.datasetUuid in ix.datasets && dataset == ix.datasets[frame.datasetUuid]
    ensures added == Records(if Resolves(ix, frameData, frameAnnotation) then [JoinedOf(ix, frameData, frameAnnotation)] else [])
  {
    added := [];
    if frameAnnotation.frameDataUuid == frameData.uuid {
      if && frameData.egoPoseUuid in ix.egoPoses && frameData.sensorUuid in ix.sensors
         && dataset.logUuid in ix.logs && frameAnnotation.instanceUuid in ix.instances
      {
        var uuid := MergeRecord(dataset, ix.egoPoses[frameData.egoPoseUuid], ix.sensors[frameData.sensorUuid],
                                frame, frameData, frameAnnotation, ix.instances[frameAnnotation.instanceUuid],
                                ix.logs[dataset.logUuid]);
        added := [uuid];
      }
    }
  }

  /** One more annotation adds its pair, if it forms one. */
  lemma AnnotationMatchesStep(ix: Indexes, fd: FrameData, fas: seq<FrameAnnotation>, j: nat)
    requires j < |fas|
    ensures AnnotationMatches(ix, fd, fas[..j + 1])
            == AnnotationMatches(ix, fd, fas[..j]) + (if Resolves(ix, fd, fas[j]) then [JoinedOf(ix, fd, fas[j])] else [])
  {
    assert fas[..j + 1][..j] == fas[..j];
    assert fas[..j + 1][j] == fas[j];
  }

  /** `UuidPut`: the join over the data store, one FrameData at a time. */
  method UuidPut(store: EntityStore) returns (r: Result<seq<Record>>)
    ensures r == Join(store)
  {
    var ix := BuildIndexes(store);
    var fas := store.frameAnnotations;
    var fds := store.frameData;
    var uuidList: seq<Record> := [];
    ghost var matches: seq<Joined> := [];
    var i := 0;
    while i < |fds|
      invariant 0 <= i <= |fds|
      invariant JoinPrefix(ix, fas, fds[..i]) == Ok(matches)
      invariant uuidList == Records(matches)
    {
      JoinPrefixStep(ix, fas, fds, i);
      var more := FrameDataJoin(ix, fas, fds[i]);
      if more.Err? {
        ErrorPersists(ix, fas, fds, i + 1);
        return Err(more.error);
      }
      RecordsStep(matches, FrameDataMatches(ix, fas, fds[i]).value, uuidList, more.value);
      uuidList := uuidList + more.value;
      matches := matches + FrameDataMatches(ix, fas, fds[i]).value;
      i := i + 1;
    }
    assert fds[..|fds|] == fds;
    r := Ok(uuidList);
  }

  /** The body of that loop for one FrameData: nothing when its frame does
      not resolve, the null dereference when its dataset does not, and
      otherwise the records of its annotations. */
  method FrameDataJoin(ix: Indexes, fas: seq<FrameAnnotation>, frameData: FrameData)
    returns (r: Result<seq<Record>>)
    ensures FrameDataMatches(ix, fas, frameData).Err? ==> r == Err(NullPointer)
    ensures FrameDataMatches(ix, fas, frameData).Ok? ==> r == Ok(Records(FrameDataMatches(ix, fas, frameData).value))
  {
    if frameData.frameUuid !in ix.frames {
      NoFrameNoMatches(ix, frameData, fas);
      return Ok([]);
    }
    var frame := ix.frames[frameData.frameUuid];
    if frame.datasetUuid !in ix.datasets {
      // `dataset.getLogUuid()` on a missing dataset
      return Err(NullPointer);
    }
    var dataset := ix.datasets[frame.datasetUuid];
    var records := JoinAnnotations(ix, frameData, frame, dataset, fas);
    r := Ok(records);
  }

  /** One more FrameData appends its pairs, or fails the join. */
  lemma JoinPrefixStep(ix: Indexes, fas: seq<FrameAnnotation>, fds: seq<FrameData>, i: nat)
    requires i < |fds| && JoinPrefix(ix, fas, fds[..i]).Ok?
    ensures JoinPrefix(ix, fas, fds[..i + 1]) ==
              match FrameDataMatches(ix, fas, fds[i])
              case Err(e) => Err(e)
              case Ok(more) => Ok(JoinPrefix(ix, fas, fds[..i]).value + more)
  {
    assert fds[..i + 1][..i] == fds[..i];
    assert fds[..i + 1][i] == fds[i];
  }

  // ----- Properties of the join -----

  lemma {:induction false} NoFrameNoMatches(ix: Indexes, fd: FrameData, fas: seq<FrameAnnotation>)
    requires !ChainResolves(ix, fd)
    ensures AnnotationMatches(ix, fd, fas) == []
  {
    if fas != [] {
      NoFrameNoMatches(ix, fd, fas[..|fas| - 1]);
    }
  }

  /** Once a prefix of the FrameData list fails, the whole join fails. */
  lemma {:induction false} ErrorPersists(ix: Indexes, fas: seq<FrameAnnotation>, fds: seq<FrameData>, n: nat)
    requires n <= |fds|
    requires JoinPrefix(ix, fas, fds[..n]).Err?
    ensures JoinPrefix(ix, fas, fds) == JoinPrefix(ix, fas, fds[..n])
    decreases |fds| - n
  {
    if n < |fds| {
      assert fds[..n + 1][..n] == fds[..n];
      ErrorPersists(ix, fas, fds, n + 1);
    } else {
      assert fds[..n] == fds;
    }
  }

  /** The positions of the annotations that belong to `fd` and whose
      instance resolves. */
  function Matching(ix: Indexes, fd: FrameData, fas: seq<FrameAnnotation>): set<nat> {
    set j: nat | j < |fas| && fas[j].frameDataUuid == fd.uuid && fas[j].instanceUuid in ix.instances
  }

  /** For a FrameData whose frame, dataset, log, egoPose and sensor resolve,
      one record per annotation of it whose instance resolves; for any
      other FrameData, none. */
  lemma {:induction false} AnnotationMatchesCount(ix: Indexes, fd: FrameData, fas: seq<FrameAnnotation>)
    ensures ChainResolves(ix, fd) ==> |AnnotationMatches(ix, fd, fas)| == |Matching(ix, fd, fas)|
    ensures !ChainResolves(ix, fd) ==> AnnotationMatches(ix, fd, fas) == []
  {
    if !ChainResolves(ix, fd) {
      NoFrameNoMatches(ix, fd, fas);
    } else if fas != [] {
      var n := |fas| - 1;
      AnnotationMatchesCount(ix, fd, fas[..n]);
      AnnotationMatchesStep(ix, fd, fas, n);
      assert fas[..n + 1] == fas;
      MatchingStep(ix, fd, fas);
    }
  }

  lemma MatchingStep(ix: Indexes, fd: FrameData, fas: seq<FrameAnnotation>)
    requires fas != []
    ensures var n := |fas| - 1;
            |Matching(ix, fd, fas)|
            == |Matching(ix, fd, fas[..n])| + (if fas[n].frameDataUuid == fd.uuid && fas[n].instanceUuid in ix.instances then 1 else 0)
  {
    var n := |fas| - 1;
    MatchingSplit(ix, fd, fas);
    assert n !in Matching(ix, fd, fas[..n]);
  }

  lemma MatchingSplit(ix: Indexes, fd: FrameData, fas: seq<FrameAnnotation>)
    requires fas != []
    ensures var n := |fas| - 1;
            Matching(ix, fd, fas) == Matching(ix, fd, fas[..n])
              + (if fas[n].frameDataUuid == fd.uuid && fas[n].instanceUuid in ix.instances then {n} else {})
  {
    var n := |fas| - 1;
    var init := fas[..n];
    forall j: nat | j < n
      ensures init[j] == fas[j]
    {
    }
  }

  /** The pairs of one FrameData keep the order of the annotation list:
      the join of two annotation lists is the join of each, concatenated. */
  lemma {:induction false} AnnotationMatchesAppend(ix: Indexes, fd: FrameData, a: seq<FrameAnnotation>, b: seq<FrameAnnotation>)
    ensures AnnotationMatches(ix, fd, a + b) == AnnotationMatches(ix, fd, a) + AnnotationMatches(ix, fd, b)
  {
    if b == [] {
      assert a + b == a;
    } else {
      var n := |b| - 1;
      assert (a + b)[..|a + b| - 1] == a + b[..n];
      assert (a + b)[|a + b| - 1] == b[n];
      AnnotationMatchesAppend(ix, fd, a, b[..n]);
    }
  }

  /** Every pair of one FrameData comes from one of its annotations for
      which every hop resolves. */
  lemma {:induction false} AnnotationMatchesSound(ix: Indexes, fd: FrameData, fas: seq<FrameAnnotation>, k: nat)
    requires k < |AnnotationMatches(ix, fd, fas)|
    ensures exists j :: 0 <= j < |fas| && Resolves(ix, fd, fas[j]) && AnnotationMatches(ix, fd, fas)[k] == JoinedOf(ix, fd, fas[j])
  {
    var n := |fas| - 1;
    var init := AnnotationMatches(ix, fd, fas[..n]);
    assert forall j :: 0 <= j < n ==> fas[..n][j] == fas[j];
    if k < |init| {
      AnnotationMatchesSound(ix, fd, fas[..n], k);
      var j :| 0 <= j < n && Resolves(ix, fd, fas[..n][j]) && init[k] == JoinedOf(ix, fd, fas[..n][j]);
      assert fas[j] == fas[..n][j];
    } else {
      assert AnnotationMatches(ix, fd, fas)[k] == JoinedOf(ix, fd, fas[n]);
    }
  }

  /** The join fails exactly when some FrameData has a frame that resolves
      and a dataset that does not; the failure is the null dereference. */
  lemma {:induction false} JoinFailsIffDanglingDataset(ix: Indexes, fas: seq<FrameAnnotation>, fds: seq<FrameData>)
    ensures JoinPrefix(ix, fas, fds).Err? <==> exists i :: 0 <= i < |fds| && DanglingDataset(ix, fds[i])
    ensures JoinPrefix(ix, fas, fds).Err? ==> JoinPrefix(ix, fas, fds).error == NullPointer
  {
    if fds != [] {
      var n := |fds| - 1;
      JoinFailsIffDanglingDataset(ix, fas, fds[..n]);
      assert forall i :: 0 <= i < n ==> fds[..n][i] == fds[i];
      if JoinPrefix(ix, fas, fds[..n]).Err? {
        var i :| 0 <= i < n && DanglingDataset(ix, fds[..n][i]);
        assert DanglingDataset(ix, fds[i]);
      }
    }
  }

  /** The join of two FrameData lists is the join of each, concatenated:
      the records of each FrameData form one block, in FrameData order. */
  lemma {:induction false} JoinPrefixAppend(ix: Indexes, fas: seq<FrameAnnotation>, a: seq<FrameData>, b: seq<FrameData>)
    requires JoinPrefix(ix, fas, a + b).Ok?
    ensures JoinPrefix(ix, fas, a).Ok? && JoinPrefix(ix, fas, b).Ok?
    ensures JoinPrefix(ix, fas, a + b).value == JoinPrefix(ix, fas, a).value + JoinPrefix(ix, fas, b).value
  {
    if b == [] {
      assert a + b == a;
    } else {
      var n := |b| - 1;
      assert (a + b)[..|a + b| - 1] == a + b[..n];
      assert (a + b)[|a + b| - 1] == b[n];
      JoinPrefixAppend(ix, fas, a, b[..n]);
    }
  }

  /** Every pair the join forms comes from a (FrameData, FrameAnnotation)
      pair in which the annotation belongs to the FrameData and frame,
      dataset, log, egoPose, sensor and instance all resolve. */
  lemma {:induction false} JoinSound(ix: Indexes, fas: seq<FrameAnnotation>, fds: seq<FrameData>, k: nat)
    requires JoinPrefix(ix, fas, fds).Ok? && k < |JoinPrefix(ix, fas, fds).value|
    ensures exists i, j :: 0 <= i < |fds| && 0 <= j < |fas| && Resolves(ix, fds[i], fas[j])
              && JoinPrefix(ix, fas, fds).value[k] == JoinedOf(ix, fds[i], fas[j])
  {
    var n := |fds| - 1;
    var init := JoinPrefix(ix, fas, fds[..n]).value;
    assert forall i :: 0 <= i < n ==> fds[..n][i] == fds[i];
    if k < |init| {
      JoinSound(ix, fas, fds[..n], k);
      var i, j :| 0 <= i < n && 0 <= j < |fas| && Resolves(ix, fds[..n][i], fas[j])
                  && init[k] == JoinedOf(ix, fds[..n][i], fas[j]);
      assert fds[i] == fds[..n][i];
    } else {
      AnnotationMatchesSound(ix, fds[n], fas, k - |init|);
    }
  }

  /** Every annotation of `fd` for which every hop resolves forms a pair. */
  lemma {:induction false} AnnotationMatchesComplete(ix: Indexes, fd: FrameData, fas: seq<FrameAnnotation>, j: nat)
    requires j < |fas| && Resolves(ix, fd, fas[j])
    ensures JoinedOf(ix, fd, fas[j]) in AnnotationMatches(ix, fd, fas)
  {
    var n := |fas| - 1;
    if j < n {
      assert fas[..n][j] == fas[j];
      AnnotationMatchesComplete(ix, fd, fas[..n], j);
    }
  }

  /** A join that succeeds contains the pair of every (FrameData,
      FrameAnnotation) pair whose hops all resolve. */
  lemma {:induction false} JoinComplete(ix: Indexes, fas: seq<FrameAnnotation>, fds: seq<FrameData>, i: nat, j: nat)
    requires JoinPrefix(ix, fas, fds).Ok?
    requires i < |fds| && j < |fas| && Resolves(ix, fds[i], fas[j])
    ensures JoinedOf(ix, fds[i], fas[j]) in JoinPrefix(ix, fas, fds).value
  {
    var n := |fds| - 1;
    if i == n {
      AnnotationMatchesComplete(ix, fds[n], fas, j);
    } else {
      assert fds[..n][i] == fds[i];
      JoinComplete(ix, fas, fds[..n], i, j);
    }
  }

  /** Every record the join of a data store emits is the flattened record
      of a resolving (FrameData, FrameAnnotation) pair of the store, and has
      the fixed, prefixed key list. */
  lemma JoinRecordsSound(store: EntityStore, k: nat)
    requires Join(store).Ok? && k < |Join(store).value|
    ensures var ix := BuildIndexes(store);
            exists i, j :: 0 <= i < |store.frameData| && 0 <= j < |store.frameAnnotations|
              && Resolves(ix, store.frameData[i], store.frameAnnotations[j])
              && Join(store).value[k] == Flatten(JoinedOf(ix, store.frameData[i], store.frameAnnotations[j]))
    ensures Names(Join(store).value[k]) == SchemaKeys()
  {
    var ix := BuildIndexes(store);
    var matches := JoinPrefix(ix, store.frameAnnotations, store.frameData).value;
    JoinSound(ix, store.frameAnnotations, store.frameData, k);
    MapSeqIndex(Flatten, matches, k);
    FlattenKeys(matches[k]);
  }

  /** A join of a data store that succeeds emits the record of every
      (FrameData, FrameAnnotation) pair of the store whose hops all
      resolve. */
  lemma JoinRecordsComplete(store: EntityStore, i: nat, j: nat)
    requires Join(store).Ok?
    requires i < |store.frameData| && j < |store.frameAnnotations|
    requires Resolves(BuildIndexes(store), store.frameData[i], store.frameAnnotations[j])
    ensures Flatten(JoinedOf(BuildIndexes(store), store.frameData[i], store.frameAnnotations[j])) in Join(store).value
  {
    var ix := BuildIndexes(store);
    var matches := JoinPrefix(ix, store.frameAnnotations, store.frameData).value;
    JoinComplete(ix, store.frameAnnotations, store.frameData, i, j);
    var k :| 0 <= k < |matches| && matches[k] == JoinedOf(ix, store.frameData[i], store.frameAnnotations[j]);
    MapSeqIndex(Flatten, matches, k);
  }
}
