/** The linode_database_postgresql_v2 resource's Terraform model and its
    mapping from and to the API's database record. */
module PostgresModels {
  import opened Wrappers
  import opened Tf
  import Decimal

  // ------------------------------------------------ the API's records (linodego)

  datatype DatabaseHost = DatabaseHost(primary: string, secondary: string)

  datatype MaintenanceWindowPending = MaintenanceWindowPending(
    deadline: Option<Timestamp>, description: string, plannedFor: Option<Timestamp>)

  datatype MaintenanceWindow = MaintenanceWindow(
    dayOfWeek: int, duration: int, frequency: string, hourOfDay: int,
    pending: seq<MaintenanceWindowPending>)

  datatype DatabaseFork = DatabaseFork(source: int, restoreTime: Option<Timestamp>)

  /** linodego.PostgresDatabase; `nodeType` is the API's `type` and
      `labelText` its `label` (a keyword in Dafny). */
  datatype PostgresDatabase = PostgresDatabase(
    id: int, status: string, labelText: string, region: string, nodeType: string,
    engine: string, version: string, encrypted: bool, allowList: seq<string>,
    port: int, sslConnection: bool, clusterSize: int, hosts: DatabaseHost,
    updates: MaintenanceWindow, created: Option<Timestamp>, updated: Option<Timestamp>,
    fork: DatabaseFork, oldestRestoreTime: Option<Timestamp>, platform: string,
    members: map<string, string>)

  // ------------------------------------------------ nested Terraform objects

  datatype ModelHosts = ModelHosts(primary: Value<string>, secondary: Value<string>)

  datatype ModelFork = ModelFork(source: Value<int>)

  datatype ModelForkDetails = ModelForkDetails(restoreTime: Value<Timestamp>)

  datatype ModelUpdates = ModelUpdates(
    dayOfWeek: Value<int>, duration: Value<int>, frequency: Value<string>, hourOfDay: Value<int>)

  datatype ModelPendingUpdate = ModelPendingUpdate(
    deadline: Value<Timestamp>, description: Value<string>, plannedFor: Value<Timestamp>)

  /** The resource's timeouts block; it is never derived from the API. */
  datatype Timeouts = Timeouts(create: Value<string>, update: Value<string>, delete: Value<string>)

  /** The model's attributes, naming each KeepOrUpdate decision. */
  datatype Attr =
    | IdAttr | LabelAttr | EngineIdAttr | RegionAttr | TypeAttr | AllowListAttr
    | ClusterSizeAttr | SslConnectionAttr | CreatedAttr | EncryptedAttr | EngineAttr
    | MembersAttr | OldestRestoreTimeAttr | PlatformAttr | PortAttr | StatusAttr
    | UpdatedAttr | VersionAttr | HostsAttr | ForkAttr | ForkDetailsAttr
    | UpdatesAttr | PendingUpdatesAttr

  /** The KeepOrUpdate* helpers: with preserveKnown false the updated value is
      taken; with preserveKnown true the helper's own rule (not part of this
      model) is the oracle `kept`, which keeps the original when true. Callers
      pass `attr in kept` for a set `kept` of the attributes kept. */
  function KeepOrUpdate<T>(original: T, updated: T, preserveKnown: bool, kept: bool): (r: T)
    ensures !preserveKnown ==> r == updated
    ensures r == original || r == updated
  {
    if preserveKnown && kept then original else updated
  }

  /** The first element of strings.Split(version, "."): the text before the
      first dot, or all of it. */
  function MajorVersion(version: string): (r: string)
    ensures |r| <= |version| && r == version[..|r|]
    ensures '.' !in r
    ensures |r| == |version| || version[|r|] == '.'
  {
    if version == [] || version[0] == '.' then [] else [version[0]] + MajorVersion(version[1..])
  }

  /** The derived engine_id: "<engine>/<major version>". */
  function EngineId(engine: string, version: string): (r: string)
    ensures |r| > |engine| && r[..|engine|] == engine && r[|engine|] == '/'
    ensures var major := r[|engine| + 1..];
      |major| <= |version| && '.' !in major && major == version[..|major|] && (|major| == |version| || version[|major|] == '.')
  {
    var major := MajorVersion(version);
    assert (engine + "/" + major)[|engine| + 1..] == major;
    engine + "/" + major
  }

  /** The major version is the only dot-free prefix that is followed by a dot
      or ends the version, so engine_id is determined by where the first dot is. */
  lemma {:induction false} MajorVersionUnique(version: string, p: string)
    requires |p| <= |version| && p == version[..|p|] && '.' !in p && (|p| == |version| || version[|p|] == '.')
    ensures MajorVersion(version) == p
  {
    if p != [] {
      assert version[0] == p[0];
      assert p[1..] == version[1..][..|p| - 1];
      MajorVersionUnique(version[1..], p[1..]);
    }
  }

  /** engine_id for a plain, a dotted and an empty version; the first is the
      unit test's. */
  lemma EngineIdExamples()
    ensures EngineId("postgresql", "16") == "postgresql/16"
    ensures EngineId("postgresql", "16.4") == "postgresql/16"
    ensures EngineId("postgresql", "") == "postgresql/"
  {
    MajorVersionUnique("16", "16");
    MajorVersionUnique("16.4", "16");
  }

  function HostsObject(h: DatabaseHost): ModelHosts {
    ModelHosts(Known(h.primary), Known(h.secondary))
  }

  function ForkObject(f: DatabaseFork): ModelFork {
    ModelFork(Known(f.source))
  }

  function ForkDetailsObject(f: DatabaseFork): ModelForkDetails {
    ModelForkDetails(TimeOf(f.restoreTime))
  }

  function UpdatesObject(w: MaintenanceWindow): ModelUpdates {
    ModelUpdates(Known(w.dayOfWeek), Known(w.duration), Known(w.frequency), Known(w.hourOfDay))
  }

  function PendingObject(p: MaintenanceWindowPending): ModelPendingUpdate {
    ModelPendingUpdate(TimeOf(p.deadline), Known(p.description), TimeOf(p.plannedFor))
  }

  /** The pending_updates set built from the API's pending list. */
  function PendingObjects(ps: seq<MaintenanceWindowPending>): (r: set<ModelPendingUpdate>)
    ensures forall i :: 0 <= i < |ps| ==> PendingObject(ps[i]) in r
    ensures forall u :: u in r ==> exists i :: 0 <= i < |ps| && u == PendingObject(ps[i])
  {
    set i | 0 <= i < |ps| :: PendingObject(ps[i])
  }

  /** Distinct pending maintenance items give distinct objects. */
  lemma PendingObjectInjective(p: MaintenanceWindowPending, q: MaintenanceWindowPending)
    requires PendingObject(p) == PendingObject(q)
    ensures p == q
  {
    assert TimeOf(p.deadline) == TimeOf(q.deadline) && TimeOf(p.plannedFor) == TimeOf(q.plannedFor);
  }

  /** Appending a pending item adds its object to the set. */
  lemma PendingObjectsSnoc(ps: seq<MaintenanceWindowPending>)
    requires ps != []
    ensures PendingObjects(ps) == PendingObjects(ps[..|ps| - 1]) + {PendingObject(ps[|ps| - 1])}
  {
    var init := ps[..|ps| - 1];
    forall u | u in PendingObjects(ps)
      ensures u in PendingObjects(init) + {PendingObject(ps[|ps| - 1])}
    {
      var i :| 0 <= i < |ps| && u == PendingObject(ps[i]);
      if i < |init| {
        assert ps[i] == init[i];
      }
    }
    forall u | u in PendingObjects(init)
      ensures u in PendingObjects(ps)
    {
      var i :| 0 <= i < |init| && u == PendingObject(init[i]);
      assert init[i] == ps[i];
    }
  }

  /** pending_updates holds at most one object per pending item, and exactly
      one per item when the items are distinct. */
  lemma {:induction false} PendingObjectsSize(ps: seq<MaintenanceWindowPending>)
    ensures |PendingObjects(ps)| <= |ps|
    ensures (forall i, j :: 0 <= i < j < |ps| ==> ps[i] != ps[j]) ==> |PendingObjects(ps)| == |ps|
  {
    if ps != [] {
      var init, last := ps[..|ps| - 1], ps[|ps| - 1];
      PendingObjectsSize(init);
      PendingObjectsSnoc(ps);
      if forall i, j :: 0 <= i < j < |ps| ==> ps[i] != ps[j] {
        forall i, j | 0 <= i < j < |init|
          ensures init[i] != init[j]
        {
          assert init[i] == ps[i] && init[j] == ps[j];
        }
        PendingObjectNotInPrefix(ps);
      }
    }
  }

  /** With distinct items, the last item's object is not among the others'. */
  lemma PendingObjectNotInPrefix(ps: seq<MaintenanceWindowPending>)
    requires ps != []
    requires forall i, j :: 0 <= i < j < |ps| ==> ps[i] != ps[j]
    ensures PendingObject(ps[|ps| - 1]) !in PendingObjects(ps[..|ps| - 1])
  {
    if PendingObject(ps[|ps| - 1]) in PendingObjects(ps[..|ps| - 1]) {
      var i :| 0 <= i < |ps| - 1 && PendingObject(ps[|ps| - 1]) == PendingObject(ps[..|ps| - 1][i]);
      PendingObjectInjective(ps[|ps| - 1], ps[i]);
      assert false;
    }
  }

  /** ModelUpdates.ToLinodego: the maintenance window of an updates object,
      each number narrowed by `toInt` (FrameworkSafeInt64ToInt, whose
      diagnostics are collected in field order). */
  function ToLinodego(m: ModelUpdates, toInt: IntConversion): (r: (MaintenanceWindow, seq<Diagnostic>))
    ensures r.0.frequency == StringOf(m.frequency) && r.0.pending == []
    ensures r.0.dayOfWeek == toInt(IntOf(m.dayOfWeek)).value && r.0.duration == toInt(IntOf(m.duration)).value &&
            r.0.hourOfDay == toInt(IntOf(m.hourOfDay)).value
    ensures HasError(r.1) <==>
      HasError(toInt(IntOf(m.dayOfWeek)).diags) || HasError(toInt(IntOf(m.duration)).diags) ||
      HasError(toInt(IntOf(m.hourOfDay)).diags)
  {
    var dayOfWeek := toInt(IntOf(m.dayOfWeek));
    var duration := toInt(IntOf(m.duration));
    var hourOfDay := toInt(IntOf(m.hourOfDay));
    HasErrorAppend(dayOfWeek.diags, duration.diags);
    HasErrorAppend(dayOfWeek.diags + duration.diags, hourOfDay.diags);
    (MaintenanceWindow(dayOfWeek.value, duration.value, StringOf(m.frequency), hourOfDay.value, []),
     dayOfWeek.diags + duration.diags + hourOfDay.diags)
  }

  /** Writing a maintenance window into the `updates` object and mapping it back
      gives the window again (without its pending list) when the narrowing
      conversions succeed. */
  lemma UpdatesRoundTrip(w: MaintenanceWindow, toInt: IntConversion)
    requires forall n :: toInt(n) == Converted(n, [])
    ensures ToLinodego(UpdatesObject(w), toInt) == (w.(pending := []), [])
  {
    var m := UpdatesObject(w);
    assert toInt(IntOf(m.dayOfWeek)) == Converted(w.dayOfWeek, []);
    assert toInt(IntOf(m.duration)) == Converted(w.duration, []);
    assert toInt(IntOf(m.hourOfDay)) == Converted(w.hourOfDay, []);
    var none: seq<Diagnostic> := [];
    assert none + none + none == none;
  }

  // ------------------------------------------------ the model's attributes, by Flatten stage

  /** Attributes Flatten sets before the allow_list conversion can fail. */
  datatype Identity = Identity(
    id: Value<string>, labelText: Value<string>, engineId: Value<string>,
    region: Value<string>, nodeType: Value<string>, allowList: Value<set<string>>)

  /** Attributes Flatten sets before the members conversion can fail. */
  datatype Settings = Settings(
    clusterSize: Value<int>, sslConnection: Value<bool>, created: Value<Timestamp>,
    encrypted: Value<bool>, engine: Value<string>, members: Value<map<string, string>>)

  /** The remaining scalar attributes. */
  datatype Details = Details(
    oldestRestoreTime: Value<Timestamp>, platform: Value<string>, port: Value<int>,
    status: Value<string>, updated: Value<Timestamp>, version: Value<string>)

  /** The nested-object and set-of-object attributes. */
  datatype Objects = Objects(
    hosts: Value<ModelHosts>, fork: Value<ModelFork>, forkDetails: Value<ModelForkDetails>,
    updates: Value<ModelUpdates>, pendingUpdates: Value<set<ModelPendingUpdate>>)

  /** A Model's value, as handed to resp.State.Set. */
  datatype ModelState = ModelState(
    timeouts: Timeouts, identity: Identity, settings: Settings, details: Details, objects: Objects)

  const NullIdentity := Identity(Null, Null, Null, Null, Null, Null)
  const NullSettings := Settings(Null, Null, Null, Null, Null, Null)
  const NullDetails := Details(Null, Null, Null, Null, Null, Null)
  const NullObjects := Objects(Null, Null, Null, Null, Null)

  /** The zero Model value. */
  const NullState := ModelState(Timeouts(Null, Null, Null), NullIdentity, NullSettings, NullDetails, NullObjects)

  const AllAttrs: set<Attr> := {
    IdAttr, LabelAttr, EngineIdAttr, RegionAttr, TypeAttr, AllowListAttr,
    ClusterSizeAttr, SslConnectionAttr, CreatedAttr, EncryptedAttr, EngineAttr,
    MembersAttr, OldestRestoreTimeAttr, PlatformAttr, PortAttr, StatusAttr,
    UpdatedAttr, VersionAttr, HostsAttr, ForkAttr, ForkDetailsAttr,
    UpdatesAttr, PendingUpdatesAttr }

  // ------------------------------------------------ the API's values of each group

  function IdentityOf(db: PostgresDatabase): Identity {
    Identity(Known(Decimal.FormatInt(db.id)), Known(db.labelText), Known(EngineId(db.engine, db.version)),
             Known(db.region), Known(db.nodeType), Known(set s | s in db.allowList))
  }

  function SettingsOf(db: PostgresDatabase): Settings {
    Settings(Known(db.clusterSize), Known(db.sslConnection), TimeOf(db.created),
             Known(db.encrypted), Known(db.engine), Known(db.members))
  }

  function DetailsOf(db: PostgresDatabase): Details {
    Details(TimeOf(db.oldestRestoreTime), Known(db.platform), Known(db.port),
            Known(db.status), TimeOf(db.updated), Known(db.version))
  }

  function ObjectsOf(db: PostgresDatabase): Objects {
    Objects(Known(HostsObject(db.hosts)), Known(ForkObject(db.fork)), Known(ForkDetailsObject(db.fork)),
            Known(UpdatesObject(db.updates)), Known(PendingObjects(db.updates.pending)))
  }

  /** The Model a database maps to when nothing is preserved. */
  function MirrorOf(db: PostgresDatabase, timeouts: Timeouts): ModelState {
    ModelState(timeouts, IdentityOf(db), SettingsOf(db), DetailsOf(db), ObjectsOf(db))
  }

  // ------------------------------------------------ KeepOrUpdate over a group

  function KeepIdentity(o: Identity, u: Identity, preserveKnown: bool, kept: set<Attr>): Identity {
    Identity(
      KeepOrUpdate(o.id, u.id, preserveKnown, IdAttr in kept),
      KeepOrUpdate(o.labelText, u.labelText, preserveKnown, LabelAttr in kept),
      KeepOrUpdate(o.engineId, u.engineId, preserveKnown, EngineIdAttr in kept),
      KeepOrUpdate(o.region, u.region, preserveKnown, RegionAttr in kept),
      KeepOrUpdate(o.nodeType, u.nodeType, preserveKnown, TypeAttr in kept),
      KeepOrUpdate(o.allowList, u.allowList, preserveKnown, AllowListAttr in kept))
  }

  function KeepSettings(o: Settings, u: Settings, preserveKnown: bool, kept: set<Attr>): Settings {
    Settings(
      KeepOrUpdate(o.clusterSize, u.clusterSize, preserveKnown, ClusterSizeAttr in kept),
      KeepOrUpdate(o.sslConnection, u.sslConnection, preserveKnown, SslConnectionAttr in kept),
      KeepOrUpdate(o.created, u.created, preserveKnown, CreatedAttr in kept),
      KeepOrUpdate(o.encrypted, u.encrypted, preserveKnown, EncryptedAttr in kept),
      KeepOrUpdate(o.engine, u.engine, preserveKnown, EngineAttr in kept),
      KeepOrUpdate(o.members, u.members, preserveKnown, MembersAttr in kept))
  }

  function KeepDetails(o: Details, u: Details, preserveKnown: bool, kept: set<Attr>): Details {
    Details(
      KeepOrUpdate(o.oldestRestoreTime, u.oldestRestoreTime, preserveKnown, OldestRestoreTimeAttr in kept),
      KeepOrUpdate(o.platform, u.platform, preserveKnown, PlatformAttr in kept),
      KeepOrUpdate(o.port, u.port, preserveKnown, PortAttr in kept),
      KeepOrUpdate(o.status, u.status, preserveKnown, StatusAttr in kept),
      KeepOrUpdate(o.updated, u.updated, preserveKnown, UpdatedAttr in kept),
      KeepOrUpdate(o.version, u.version, preserveKnown, VersionAttr in kept))
  }

  function KeepObjects(o: Objects, u: Objects, preserveKnown: bool, kept: set<Attr>): Objects {
    Objects(
      KeepOrUpdate(o.hosts, u.hosts, preserveKnown, HostsAttr in kept),
      KeepOrUpdate(o.fork, u.fork, preserveKnown, ForkAttr in kept),
      KeepOrUpdate(o.forkDetails, u.forkDetails, preserveKnown, ForkDetailsAttr in kept),
      KeepOrUpdate(o.updates, u.updates, preserveKnown, UpdatesAttr in kept),
      KeepOrUpdate(o.pendingUpdates, u.pendingUpdates, preserveKnown, PendingUpdatesAttr in kept))
  }

  // ------------------------------------------------ Flatten and CopyFrom on values

  /** The diagnostics that Flatten's framework conversions produce; the model
      takes them as given. */
  datatype ConversionDiags = ConversionDiags(
    allowList: seq<Diagnostic>, members: seq<Diagnostic>, objects: seq<Diagnostic>)

  /** What Flatten returns: the diagnostics up to the stage that failed, and
      none once both checks pass (the object conversions' are dropped). */
  function FlattenDiags(conv: ConversionDiags): seq<Diagnostic> {
    if HasError(conv.allowList) then conv.allowList
    else if HasError(conv.allowList + conv.members) then conv.allowList + conv.members
    else []
  }

  /** The Model value Flatten leaves: each stage's attributes are refreshed
      from db, and a failed check leaves the later stages as they were. */
  function FlattenState(s: ModelState, db: PostgresDatabase, preserveKnown: bool, kept: set<Attr>, conv: ConversionDiags): ModelState {
    var identity := KeepIdentity(s.identity, IdentityOf(db), preserveKnown, kept);
    if HasError(conv.allowList) then s.(identity := identity)
    else
      var settings := KeepSettings(s.settings, SettingsOf(db), preserveKnown, kept);
      if HasError(conv.allowList + conv.members) then s.(identity := identity, settings := settings)
      else
        s.(identity := identity, settings := settings,
           details := KeepDetails(s.details, DetailsOf(db), preserveKnown, kept),
           objects := KeepObjects(s.objects, ObjectsOf(db), preserveKnown, kept))
  }

  /** The Model value CopyFrom leaves: every attribute but timeouts is
      KeepOrUpdate'd from other's. */
  function CopyState(s: ModelState, other: ModelState, preserveKnown: bool, kept: set<Attr>): ModelState {
    s.(identity := KeepIdentity(s.identity, other.identity, preserveKnown, kept),
       settings := KeepSettings(s.settings, other.settings, preserveKnown, kept),
       details := KeepDetails(s.details, other.details, preserveKnown, kept),
       objects := KeepObjects(s.objects, other.objects, preserveKnown, kept))
  }

  /** Without preserving known values, and when the conversions succeed,
      Flatten makes the model mirror the database, whatever it held before
      (timeouts excepted). */
  lemma FlattenMirrors(s: ModelState, db: PostgresDatabase, kept: set<Attr>, conv: ConversionDiags)
    requires !HasError(conv.allowList + conv.members)
    ensures !HasError(conv.allowList)
    ensures FlattenState(s, db, false, kept, conv) == MirrorOf(db, s.timeouts)
    ensures FlattenDiags(conv) == []
  {
    HasErrorAppend(conv.allowList, conv.members);
  }

  /** A failed allow_list conversion stops Flatten after the first stage, and
      a failed members conversion after the second: what follows is untouched. */
  lemma FlattenStopsAtError(s: ModelState, db: PostgresDatabase, preserveKnown: bool, kept: set<Attr>, conv: ConversionDiags)
    ensures var r := FlattenState(s, db, preserveKnown, kept, conv);
      r.timeouts == s.timeouts &&
      (HasError(FlattenDiags(conv)) ==> r.details == s.details && r.objects == s.objects) &&
      (HasError(conv.allowList) ==> r.settings == s.settings)
    ensures HasError(FlattenDiags(conv)) <==> HasError(conv.allowList + conv.members)
  {
    HasErrorAppend(conv.allowList, conv.members);
  }

  /** Refreshing twice from the same database is refreshing once. */
  lemma FlattenIdempotent(s: ModelState, db: PostgresDatabase, preserveKnown: bool, kept: set<Attr>, conv: ConversionDiags)
    ensures var once := FlattenState(s, db, preserveKnown, kept, conv);
      FlattenState(once, db, preserveKnown, kept, conv) == once
  {
  }

  /** When every attribute is kept, preserving Flatten changes nothing. */
  lemma FlattenKeepingAll(s: ModelState, db: PostgresDatabase, conv: ConversionDiags)
    ensures FlattenState(s, db, true, AllAttrs, conv) == s
  {
  }

  /** Without preserving, CopyFrom makes the attributes equal to other's. */
  lemma CopyWithoutPreserving(s: ModelState, other: ModelState, kept: set<Attr>)
    ensures CopyState(s, other, false, kept) == other.(timeouts := s.timeouts)
  {
  }

  /** Copying a model onto itself changes nothing. */
  lemma CopySelf(s: ModelState, preserveKnown: bool, kept: set<Attr>)
    ensures CopyState(s, s, preserveKnown, kept) == s
  {
  }

  /** The database of the unit tests (its timestamps are all `now`). */
  function TestDatabase(now: Timestamp): PostgresDatabase {
    PostgresDatabase(
      12345, "provisioning", "foobar", "us-mia", "g6-nanode-1", "postgresql", "16", true,
      ["0.0.0.0/0", "10.0.0.1/32"], 1234, true, 3, DatabaseHost("1.2.3.4", "4.3.2.1"),
      MaintenanceWindow(1, 1, "weekly", 1, [MaintenanceWindowPending(Some(now), "foobar", Some(now))]),
      Some(now), Some(now), DatabaseFork(12345, Some(now)), Some(now), "foobar", map[])
  }

  /** strconv.Itoa of the test database's ID. */
  lemma FormatTestId()
    ensures Decimal.FormatInt(12345) == "12345"
  {
    assert Decimal.NatDigits(1) == "1";
    assert Decimal.NatDigits(12) == "12";
    assert Decimal.NatDigits(123) == "123";
    assert Decimal.NatDigits(1234) == "1234";
  }

  /** The values the Flatten unit test expects from the test database. */
  lemma FlattenOfTestDatabase(now: Timestamp, kept: set<Attr>)
    ensures var r := FlattenState(NullState, TestDatabase(now), false, kept, ConversionDiags([], [], []));
      r.identity == Identity(Known("12345"), Known("foobar"), Known("postgresql/16"), Known("us-mia"),
                             Known("g6-nanode-1"), Known({"0.0.0.0/0", "10.0.0.1/32"})) &&
      r.settings.encrypted == Known(true) && r.settings.engine == Known("postgresql") &&
      r.settings.sslConnection == Known(true) &&
      r.details == Details(Known(now), Known("foobar"), Known(1234), Known("provisioning"), Known(now), Known("16")) &&
      r.objects == Objects(
        Known(ModelHosts(Known("1.2.3.4"), Known("4.3.2.1"))), Known(ModelFork(Known(12345))),
        Known(ModelForkDetails(Known(now))), Known(ModelUpdates(Known(1), Known(1), Known("weekly"), Known(1))),
        Known({ModelPendingUpdate(Known(now), Known("foobar"), Known(now))}))
  {
    var db := TestDatabase(now);
    FlattenMirrors(NullState, db, kept, ConversionDiags([], [], []));
    FormatTestId();
    EngineIdExamples();
    var allow := set s | s in db.allowList;
    assert allow == {"0.0.0.0/0", "10.0.0.1/32"} by {
      assert db.allowList[0] in allow && db.allowList[1] in allow;
    }
    var pending := PendingObjects(db.updates.pending);
    assert pending == {ModelPendingUpdate(Known(now), Known("foobar"), Known(now))} by {
      assert PendingObject(db.updates.pending[0]) in pending;
    }
  }

  // ------------------------------------------------ the Model object

  /** The Terraform model of the resource (Model), its attributes held in the
      four groups above. */
  class Model {
    var timeouts: Timeouts
    var identity: Identity
    var settings: Settings
    var details: Details
    var objects: Objects

    /** The zero Model: every attribute null. */
    constructor ()
      ensures State() == NullState
    {
      timeouts := Timeouts(Null, Null, Null);
      identity, settings, details, objects := NullIdentity, NullSettings, NullDetails, NullObjects;
    }

    /** A Model read from a plan or a state (req.Plan.Get, req.State.Get). */
    constructor FromState(s: ModelState)
      ensures State() == s
    {
      timeouts, identity, settings, details, objects := s.timeouts, s.identity, s.settings, s.details, s.objects;
    }

    function State(): ModelState
      reads this
    {
      ModelState(timeouts, identity, settings, details, objects)
    }

    /** Model.Flatten: refresh the attributes from db, stage by stage. */
    method Flatten(db: PostgresDatabase, preserveKnown: bool, kept: set<Attr>, conv: ConversionDiags)
      returns (d: seq<Diagnostic>)
      modifies this
      ensures State() == FlattenState(old(State()), db, preserveKnown, kept, conv)
      ensures d == FlattenDiags(conv)
    {
      identity := KeepIdentity(identity, IdentityOf(db), preserveKnown, kept);
      d := conv.allowList;
      if HasError(d) {
        return;
      }
      settings := KeepSettings(settings, SettingsOf(db), preserveKnown, kept);
      d := d + conv.members;
      if HasError(d) {
        return;
      }
      details := KeepDetails(details, DetailsOf(db), preserveKnown, kept);
      // the object conversions' diagnostics are appended to d, which the
      // final `return nil` then discards
      d := d + conv.objects;
      objects := KeepObjects(objects, ObjectsOf(db), preserveKnown, kept);
      return [];
    }

    /** Model.CopyFrom. */
    method CopyFrom(other: Model, preserveKnown: bool, kept: set<Attr>)
      modifies this
      ensures State() == CopyState(old(State()), old(other.State()), preserveKnown, kept)
    {
      var o := other.State();
      identity := KeepIdentity(identity, o.identity, preserveKnown, kept);
      settings := KeepSettings(settings, o.settings, preserveKnown, kept);
      details := KeepDetails(details, o.details, preserveKnown, kept);
      objects := KeepObjects(objects, o.objects, preserveKnown, kept);
    }
  }

  /** The unit tests: flattening the test database into a zero Model without
      preserving known values yields the API's values, and copying that model
      into another zero Model yields an equal model. */
  method FlattenThenCopy(db: PostgresDatabase, kept: set<Attr>) returns (flattened: Model, copied: Model)
    ensures fresh(flattened) && fresh(copied)
    ensures flattened.State() == MirrorOf(db, NullState.timeouts)
    ensures copied.State() == flattened.State()
  {
    flattened := new Model();
    var _ := flattened.Flatten(db, false, kept, ConversionDiags([], [], []));
    FlattenMirrors(NullState, db, kept, ConversionDiags([], [], []));
    copied := new Model();
    copied.CopyFrom(flattened, false, kept);
    CopyWithoutPreserving(NullState, flattened.State(), kept);
  }
}
