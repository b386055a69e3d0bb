/** The INSPECT response: execution context, placement and provenance of one job. */
module InspectInfos {
  import opened Basics
  import opened Wire
  import opened WireLaws
  import opened Messages
  import opened Responses

  datatype EnvEntry = EnvEntry(name: string, masked: bool, value: string)

  datatype InspectInfo = InspectInfo(
    job: int, state: int, ownerUid: int, revision: int,
    cwd: string, executable: Option<string>, argv: seq<string>, envMetadata: Option<WireMetadata>,
    env: seq<EnvEntry>, gpuUuid: Option<string>, gpuIndex: Option<int>,
    placementMode: int, placementDevice: Option<string>, placementDevices: seq<string>,
    submitTime: int, exit: Option<WireExit>, logPath: Option<string>)

  const MAX_PLACEMENT_MODE := 2

  // ---- Environment entries ----

  const ENTRY := Record([Str, Flag, Str])

  function EntryValue(e: EnvEntry): Value {
    Items([Text(e.name), Bool(e.masked), Text(e.value)])
  }

  function EntryOf(v: Value): EnvEntry {
    EnvEntry(TextOf(Field(v, 0)), BoolOf(Field(v, 1)), TextOf(Field(v, 2)))
  }

  function EntryValues(env: seq<EnvEntry>): (v: Value)
    ensures v.Items? && |v.items| == |env| && forall i :: 0 <= i < |env| ==> v.items[i] == EntryValue(env[i])
  {
    Items(seq(|env|, i requires 0 <= i < |env| => EntryValue(env[i])))
  }

  function EntriesOf(v: Value): (env: seq<EnvEntry>)
    ensures v.Items? ==> |env| == |v.items| && forall i :: 0 <= i < |env| ==> env[i] == EntryOf(v.items[i])
  {
    if v.Items? then seq(|v.items|, i requires 0 <= i < |v.items| => EntryOf(v.items[i])) else []
  }

  lemma EntriesBack(v: Value)
    requires Fits(List(MAX_LIST_ITEMS, ENTRY), v)
    ensures EntryValues(EntriesOf(v)) == v
  {
    forall i | 0 <= i < |v.items| ensures EntryValue(EntryOf(v.items[i])) == v.items[i] {
      assert Fits(ENTRY, v.items[i]);
      FitsThree(Str, Flag, Str, v.items[i]);
    }
    assert EntryValues(EntriesOf(v)).items == v.items;
  }

  lemma EntriesThere(env: seq<EnvEntry>)
    ensures EntriesOf(EntryValues(env)) == env
  {
  }

  lemma EntriesPass(env: seq<EnvEntry>)
    ensures Passes(List(MAX_LIST_ITEMS, ENTRY), EntryValues(env))
  {
    forall i | 0 <= i < |env| ensures Passes(ENTRY, EntryValue(env[i])) {
      PassesThree(Str, Flag, Str, Text(env[i].name), Bool(env[i].masked), Text(env[i].value));
    }
  }

  // ---- The four parts ----

  function ContextFormat(): Format {
    Record([IdentityFormat(), Str, Opt(Str), List(MAX_ITEMS, Str)])
  }

  function AllocationFormat(): Format {
    Record([MetadataFormat(), List(MAX_LIST_ITEMS, ENTRY), Opt(Str), Opt(UInt(4))])
  }

  const PROVENANCE := Record([UInt(8), EXIT_FORMAT, Opt(Str)])

  function ModeFormat(): Format {
    Record([Byte(MAX_PLACEMENT_MODE, true), Opt(Str)])
  }

  function PlacementFormat(version: int): Format {
    Record([When(version >= 3, ModeFormat()), When(version >= 4, ShortList(Str))])
  }

  function InspectFormat(version: int): Format {
    Record([ContextFormat(), AllocationFormat(), PROVENANCE, PlacementFormat(version)])
  }

  function ContextValue(m: InspectInfo): Value {
    Items([IdentityValue(m.job, m.state, m.ownerUid, m.revision), Text(m.cwd), OptText(m.executable), Texts(m.argv)])
  }

  function AllocationValue(m: InspectInfo): Value {
    Items([MetadataValue(m.envMetadata), EntryValues(m.env), OptText(m.gpuUuid), OptNum(m.gpuIndex)])
  }

  function ProvenanceValue(m: InspectInfo): Value {
    Items([Num(m.submitTime), ExitValue(m.exit), OptText(m.logPath)])
  }

  function ModeValue(mode: int, device: Option<string>): Value {
    Items([Num(mode), OptText(device)])
  }

  function PlacementValue(version: int, m: InspectInfo): Value {
    Items([ValueWhen(version >= 3, ModeValue(m.placementMode, m.placementDevice)),
           ValueWhen(version >= 4, Texts(m.placementDevices))])
  }

  function InspectValue(version: int, m: InspectInfo): Value {
    Items([ContextValue(m), AllocationValue(m), ProvenanceValue(m), PlacementValue(version, m)])
  }

  function InspectOf(version: int, v: Value): InspectInfo {
    var context, allocation, provenance, placement := Field(v, 0), Field(v, 1), Field(v, 2), Field(v, 3);
    var id, mode := Field(context, 0), Field(placement, 0);
    InspectInfo(
      NumOf(Field(id, 0)), NumOf(Field(id, 1)), NumOf(Field(id, 2)), NumOf(Field(id, 3)),
      TextOf(Field(context, 1)), TextOpt(Field(context, 2)), TextsOf(Field(context, 3)),
      MetadataOf(Field(allocation, 0)), EntriesOf(Field(allocation, 1)), TextOpt(Field(allocation, 2)),
      NumOpt(Field(allocation, 3)),
      if version >= 3 then NumOf(Field(mode, 0)) else 0,
      if version >= 3 then TextOpt(Field(mode, 1)) else None,
      if version >= 4 then TextsOf(Field(placement, 1)) else [],
      NumOf(Field(provenance, 0)), ExitOf(Field(provenance, 1)), TextOpt(Field(provenance, 2)))
  }

  /** Nothing the version does not carry. */
  predicate InspectLossless(version: int, m: InspectInfo) {
    && (version < 3 ==> m.placementMode == 0 && m.placementDevice.None?)
    && (version < 4 ==> m.placementDevices == [])
  }

  /** What the receiver checks and the sender does not: the state, and a device count that fits one byte. */
  predicate InspectAccepted(version: int, m: InspectInfo) {
    m.state <= MAX_JOB_STATE && (version >= 4 ==> |m.placementDevices| < 256)
  }

  // ---- Back and there ----

  lemma ContextBack(version: int, v: Value, context: Value)
    requires Fits(ContextFormat(), context) && context == Field(v, 0)
    ensures ContextValue(InspectOf(version, v)) == context
  {
    FitsFour(IdentityFormat(), Str, Opt(Str), List(MAX_ITEMS, Str), context);
    IdentityBack(context.items[0]);
    OptTextBack(context.items[2]);
    TextsBack(List(MAX_ITEMS, Str), context.items[3]);
  }

  lemma AllocationBack(version: int, v: Value, allocation: Value)
    requires Fits(AllocationFormat(), allocation) && allocation == Field(v, 1)
    ensures AllocationValue(InspectOf(version, v)) == allocation
  {
    FitsFour(MetadataFormat(), List(MAX_LIST_ITEMS, ENTRY), Opt(Str), Opt(UInt(4)), allocation);
    MetadataBack(allocation.items[0]);
    EntriesBack(allocation.items[1]);
    OptTextBack(allocation.items[2]);
    OptNumBack(4, allocation.items[3]);
  }

  lemma ProvenanceBack(version: int, v: Value, provenance: Value)
    requires Fits(PROVENANCE, provenance) && provenance == Field(v, 2)
    ensures ProvenanceValue(InspectOf(version, v)) == provenance
  {
    FitsThree(UInt(8), EXIT_FORMAT, Opt(Str), provenance);
    ExitBack(provenance.items[1]);
    OptTextBack(provenance.items[2]);
  }

  lemma ModeBack(v: Value)
    requires Fits(ModeFormat(), v)
    ensures ModeValue(NumOf(Field(v, 0)), TextOpt(Field(v, 1))) == v
  {
    FitsTwo(Byte(MAX_PLACEMENT_MODE, true), Opt(Str), v);
    ByteIsNum(MAX_PLACEMENT_MODE, true, v.items[0]);
    OptTextBack(v.items[1]);
  }

  lemma PlacementBack(version: int, v: Value, placement: Value)
    requires Fits(PlacementFormat(version), placement) && placement == Field(v, 3)
    ensures PlacementValue(version, InspectOf(version, v)) == placement
  {
    FitsTwo(When(version >= 3, ModeFormat()), When(version >= 4, ShortList(Str)), placement);
    if version >= 3 {
      ModeBack(placement.items[0]);
    } else {
      WhenAbsent(ModeFormat(), placement.items[0]);
    }
    if version >= 4 {
      TextsBack(ShortList(Str), placement.items[1]);
    } else {
      WhenAbsent(ShortList(Str), placement.items[1]);
    }
  }

  lemma InspectBack(version: int, v: Value)
    requires Fits(InspectFormat(version), v)
    ensures InspectValue(version, InspectOf(version, v)) == v && InspectLossless(version, InspectOf(version, v))
  {
    FitsFour(ContextFormat(), AllocationFormat(), PROVENANCE, PlacementFormat(version), v);
    ContextBack(version, v, v.items[0]);
    AllocationBack(version, v, v.items[1]);
    ProvenanceBack(version, v, v.items[2]);
    PlacementBack(version, v, v.items[3]);
  }

  lemma InspectThere(version: int, m: InspectInfo)
    requires InspectLossless(version, m)
    ensures InspectOf(version, InspectValue(version, m)) == m
  {
    TextsThere(m.argv);
    TextsThere(m.placementDevices);
    EntriesThere(m.env);
  }

  // ---- What passes ----

  lemma ContextPasses(m: InspectInfo)
    ensures Passes(ContextFormat(), ContextValue(m)) <==> m.state <= MAX_JOB_STATE
  {
    IdentityPasses(m.job, m.state, m.ownerUid, m.revision);
    var v := ContextValue(m).items;
    PassesFour(IdentityFormat(), Str, Opt(Str), List(MAX_ITEMS, Str), v[0], v[1], v[2], v[3]);
  }

  lemma MetadataAlwaysPasses(m: Option<WireMetadata>)
    ensures Passes(MetadataFormat(), MetadataValue(m))
  {
    if m.Some? {
      PassesTwo(Byte(MAX_SOURCE, true), Opt(Str), Num(m.value.source), OptText(m.value.pythonVersion));
    }
  }

  lemma AllocationPasses(m: InspectInfo)
    ensures Passes(AllocationFormat(), AllocationValue(m))
  {
    MetadataAlwaysPasses(m.envMetadata);
    EntriesPass(m.env);
    OptNumPasses(4, m.gpuIndex);
    var v := AllocationValue(m).items;
    PassesFour(MetadataFormat(), List(MAX_LIST_ITEMS, ENTRY), Opt(Str), Opt(UInt(4)), v[0], v[1], v[2], v[3]);
  }

  lemma ProvenancePasses(m: InspectInfo)
    ensures Passes(PROVENANCE, ProvenanceValue(m))
  {
    ExitPasses(m.exit);
    var v := ProvenanceValue(m).items;
    PassesThree(UInt(8), EXIT_FORMAT, Opt(Str), v[0], v[1], v[2]);
  }

  lemma PlacementPasses(version: int, m: InspectInfo)
    ensures Passes(PlacementFormat(version), PlacementValue(version, m)) <==>
      (version >= 4 ==> |m.placementDevices| < 256)
  {
    PassesTwo(Byte(MAX_PLACEMENT_MODE, true), Opt(Str), Num(m.placementMode), OptText(m.placementDevice));
    assert Passes(ShortList(Str), Texts(m.placementDevices)) <==> |m.placementDevices| < 256;
    var v := PlacementValue(version, m).items;
    PassesTwo(When(version >= 3, ModeFormat()), When(version >= 4, ShortList(Str)), v[0], v[1]);
  }

  lemma InspectPasses(version: int, m: InspectInfo)
    ensures Passes(InspectFormat(version), InspectValue(version, m)) <==> InspectAccepted(version, m)
  {
    ContextPasses(m);
    AllocationPasses(m);
    ProvenancePasses(m);
    PlacementPasses(version, m);
    PassesFour(ContextFormat(), AllocationFormat(), PROVENANCE, PlacementFormat(version),
               ContextValue(m), AllocationValue(m), ProvenanceValue(m), PlacementValue(version, m));
  }
}
