/**
 The memory of DatabaseServers, whose copies share nothing with the original, and of
 DatabaseSchemas, whose copies share the two pointers of the spec and nothing else.
 */
module OtherObjects {
  import R = Resources
  import S = ServerPass
  import opened Objects

  class RdsPlugin {
    var engine: string

    constructor (engine: string)
      ensures this.engine == engine
    {
      this.engine := engine;
    }
  }

  /** The fields of the MySQL and of the Postgres plugin; the last one is the config volume or the initdb arguments. */
  datatype PodSettings = PodSettings(image: string, version: string, dataVolume: string, extra: string)

  class PodPlugin {
    var settings: PodSettings

    constructor (settings: PodSettings)
      ensures this.settings == settings
    {
      this.settings := settings;
    }
  }

  datatype Plugins = Plugins(rds: RdsPlugin?, mySql: PodPlugin?, postgres: PodPlugin?)

  datatype PluginValues = PluginValues(
    rds: R.Option<string>,
    mySql: R.Option<PodSettings>,
    postgres: R.Option<PodSettings>)

  function SettingsOf(p: PodPlugin?): R.Option<PodSettings>
    reads p
  {
    if p == null then R.None else R.Some(p.settings)
  }

  function ValuesOf(p: Plugins): PluginValues
    reads p.rds, p.mySql, p.postgres
  {
    PluginValues(if p.rds == null then R.None else R.Some(p.rds.engine), SettingsOf(p.mySql), SettingsOf(p.postgres))
  }

  /** The active plugin: the first that is set, in this order. */
  function Active(v: PluginValues): R.Plugin {
    if v.rds.Some? then R.Rds(v.rds.value)
    else if v.mySql.Some? then R.MySql
    else if v.postgres.Some? then R.Postgres
    else R.NoneSet
  }

  /** The plugin that is taken is a property of which pointers are set. */
  lemma ActiveByPointers(p: Plugins)
    ensures p.rds != null ==> Active(ValuesOf(p)) == R.Rds(p.rds.engine)
    ensures p.rds == null && p.mySql != null ==> Active(ValuesOf(p)) == R.MySql
    ensures p.rds == null && p.mySql == null && p.postgres != null ==> Active(ValuesOf(p)) == R.Postgres
    ensures Active(ValuesOf(p)).NoneSet? <==> p.rds == null && p.mySql == null && p.postgres == null
  {}

  ghost predicate SamePodPlugin(a: PodPlugin?, b: PodPlugin?)
    reads a, b
  {
    (a == null <==> b == null) && (a != null && b != null ==> a.settings == b.settings)
  }

  /** Equal values are equal settings of the same plugins. */
  lemma PluginValuesShowAll(a: Plugins, b: Plugins)
    ensures ValuesOf(a) == ValuesOf(b) <==>
              && (a.rds == null <==> b.rds == null) && (a.rds != null && b.rds != null ==> a.rds.engine == b.rds.engine)
              && SamePodPlugin(a.mySql, b.mySql) && SamePodPlugin(a.postgres, b.postgres)
  {}

  method CopyPodPlugin(p: PodPlugin?) returns (out: PodPlugin?)
    ensures SettingsOf(out) == SettingsOf(p) && (out == null || fresh(out))
  {
    out := null;
    if p != null { out := new PodPlugin(p.settings); }
  }

  method CopyPlugins(p: Plugins) returns (out: Plugins, ghost repr: set<object>)
    ensures ValuesOf(out) == ValuesOf(p) && fresh(repr)
    ensures (out.rds == null || out.rds in repr) && (out.mySql == null || out.mySql in repr)
    ensures out.postgres == null || out.postgres in repr
  {
    var rds: RdsPlugin? := null;
    if p.rds != null { rds := new RdsPlugin(p.rds.engine); }
    var mySql := CopyPodPlugin(p.mySql);
    var postgres := CopyPodPlugin(p.postgres);
    out := Plugins(rds, mySql, postgres);
    repr := (if rds == null then {} else {rds}) + (if mySql == null then {} else {mySql}) +
            (if postgres == null then {} else {postgres});
  }

  /** What backs a volume; its fields and its own copy method are the Kubernetes library's. */
  class VolumeSource {
    var contents: string

    constructor (contents: string)
      ensures this.contents == contents
    {
      this.contents := contents;
    }
  }

  datatype Volume = Volume(name: string, source: VolumeSource?)

  datatype VolumeValue = VolumeValue(name: string, contents: R.Option<string>)

  function VolumeOf(v: Volume): VolumeValue
    reads v.source
  {
    VolumeValue(v.name, if v.source == null then R.None else R.Some(v.source.contents))
  }

  ghost predicate VolumesIn(volumes: seq<Volume>, repr: set<object>) {
    forall i :: 0 <= i < |volumes| ==> volumes[i].source == null || volumes[i].source in repr
  }

  function VolumesOf(volumes: seq<Volume>, ghost repr: set<object>): (r: seq<VolumeValue>)
    requires VolumesIn(volumes, repr)
    reads repr
    ensures |r| == |volumes| && forall i :: 0 <= i < |volumes| ==> r[i] == VolumeOf(volumes[i])
  {
    seq(|volumes|, i requires 0 <= i < |volumes| && VolumesIn(volumes, repr) reads repr => VolumeOf(volumes[i]))
  }

  ghost predicate SameVolume(a: Volume, b: Volume)
    reads a.source, b.source
  {
    a.name == b.name && (a.source == null <==> b.source == null) &&
    (a.source != null && b.source != null ==> a.source.contents == b.source.contents)
  }

  /** Equal values are volumes of the same names, backed by the same. */
  lemma VolumeValuesShowAll(a: seq<Volume>, reprA: set<object>, b: seq<Volume>, reprB: set<object>)
    requires VolumesIn(a, reprA) && VolumesIn(b, reprB)
    ensures VolumesOf(a, reprA) == VolumesOf(b, reprB) <==>
              |a| == |b| && forall i :: 0 <= i < |a| ==> SameVolume(a[i], b[i])
  {
    if |a| == |b| {
      assert (forall i :: 0 <= i < |a| ==> SameVolume(a[i], b[i])) ==> VolumesOf(a, reprA) == VolumesOf(b, reprB);
      assert VolumesOf(a, reprA) == VolumesOf(b, reprB) ==>
          forall i :: 0 <= i < |a| ==> VolumeOf(a[i]) == VolumesOf(a, reprA)[i] == VolumeOf(b[i]);
    }
  }

  method CopyVolume(v: Volume) returns (out: Volume)
    ensures VolumeOf(out) == VolumeOf(v) && (out.source == null || fresh(out.source))
  {
    out := v;
    if v.source != null {
      var source := new VolumeSource(v.source.contents);
      out := v.(source := source);
    }
  }

  /** Copies the volumes one by one into a new array. */
  method CopyEachVolume(volumes: array<Volume>, ghost repr: set<object>, out: array<Volume>)
    returns (ghost repr': set<object>)
    requires VolumesIn(volumes[..], repr) && out !in repr && out != volumes && out.Length == volumes.Length
    modifies out
    ensures fresh(repr') && VolumesIn(out[..], repr') && VolumesIn(volumes[..], repr)
    ensures VolumesOf(out[..], repr') == VolumesOf(volumes[..], repr)
  {
    ghost var wanted := VolumesOf(volumes[..], repr);
    repr' := {};
    for i := 0 to volumes.Length
      invariant fresh(repr') && VolumesIn(volumes[..], repr) && VolumesOf(volumes[..], repr) == wanted
      invariant forall k :: 0 <= k < i ==> out[k].source == null || out[k].source in repr'
      invariant forall k :: 0 <= k < i ==> VolumeOf(out[k]) == wanted[k]
    {
      var copied := CopyVolume(volumes[i]);
      assert VolumeOf(copied) == wanted[i];
      repr' := repr' + if copied.source == null then {} else {copied.source};
      out[i] := copied;
    }
    assert VolumesOf(out[..], repr') == wanted;
  }

  ghost predicate VolumeArrayIn(volumes: array?<Volume>, repr: set<object>)
    reads repr
  {
    volumes == null || (volumes in repr && VolumesIn(volumes[..], repr))
  }

  /** What an array of volumes holds, if there is one. */
  function VolumeArrayOf(volumes: array?<Volume>, ghost repr: set<object>): R.Option<seq<VolumeValue>>
    requires VolumeArrayIn(volumes, repr)
    reads repr
  {
    if volumes == null then R.None else R.Some(VolumesOf(volumes[..], repr))
  }

  method CopyVolumes(volumes: array?<Volume>, ghost repr: set<object>)
    returns (out: array?<Volume>, ghost repr': set<object>)
    requires VolumeArrayIn(volumes, repr)
    ensures fresh(repr') && VolumeArrayIn(out, repr') && VolumeArrayOf(out, repr') == VolumeArrayOf(volumes, repr)
  {
    repr' := {};
    if volumes == null { return null, repr'; }
    out := new Volume[volumes.Length](_ => Volume("", null));
    repr' := CopyEachVolume(volumes, repr, out);
    assert VolumesOf(out[..], repr' + {out}) == VolumesOf(out[..], repr');
    repr' := repr' + {out};
  }

  datatype ServerSpec = ServerSpec(
    plugins: Plugins,
    volumes: array?<Volume>,
    superUser: string,
    superUserFrom: ValueSource?,
    superUserPassword: string,
    superUserPasswordFrom: ValueSource?,
    dbHost: string,
    servicePort: int)

  ghost predicate PluginsIn(p: Plugins, repr: set<object>) {
    (p.rds == null || p.rds in repr) && (p.mySql == null || p.mySql in repr) && (p.postgres == null || p.postgres in repr)
  }

  ghost predicate ServerSpecIn(spec: ServerSpec, repr: set<object>)
    reads repr
  {
    PluginsIn(spec.plugins, repr) && VolumeArrayIn(spec.volumes, repr) && SourceIn(spec.superUserFrom, repr) && SourceIn(spec.superUserPasswordFrom, repr)
  }

  function ServerSpecValue(spec: ServerSpec, ghost repr: set<object>): R.DatabaseServerSpec
    requires ServerSpecIn(spec, repr)
    reads repr
  {
    R.DatabaseServerSpec(Active(ValuesOf(spec.plugins)), spec.superUser, SourceValue(spec.superUserFrom),
                         spec.superUserPassword, SourceValue(spec.superUserPasswordFrom), spec.dbHost, spec.servicePort)
  }

  /** What the value does not show: the settings of all plugins, and the volumes. */
  ghost predicate SameDetails(a: ServerSpec, reprA: set<object>, b: ServerSpec, reprB: set<object>)
    requires ServerSpecIn(a, reprA) && ServerSpecIn(b, reprB)
    reads reprA, reprB
  {
    ValuesOf(a.plugins) == ValuesOf(b.plugins) && VolumeArrayOf(a.volumes, reprA) == VolumeArrayOf(b.volumes, reprB)
  }

  /** Copies the plugin settings and the volumes. */
  method CopyDetails(plugins: Plugins, volumes: array?<Volume>, ghost repr: set<object>)
    returns (plugins': Plugins, volumes': array?<Volume>, ghost repr': set<object>)
    requires VolumeArrayIn(volumes, repr)
    ensures fresh(repr') && PluginsIn(plugins', repr') && VolumeArrayIn(volumes', repr')
    ensures ValuesOf(plugins') == ValuesOf(plugins) && VolumeArrayOf(volumes', repr') == VolumeArrayOf(volumes, repr)
  {
    ghost var pluginObjects, volumeObjects;
    plugins', pluginObjects := CopyPlugins(plugins);
    volumes', volumeObjects := CopyVolumes(volumes, repr);
    repr' := pluginObjects + volumeObjects;
    if volumes' != null { assert VolumesOf(volumes'[..], repr') == VolumesOf(volumes'[..], volumeObjects); }
  }

  lemma VolumesInMore(volumes: array?<Volume>, repr: set<object>, more: set<object>)
    requires VolumeArrayIn(volumes, repr) && repr <= more
    ensures VolumeArrayIn(volumes, more) && VolumeArrayOf(volumes, more) == VolumeArrayOf(volumes, repr)
  {
    if volumes != null { assert VolumesOf(volumes[..], more) == VolumesOf(volumes[..], repr); }
  }

  /** Copies the sources of the two superuser credentials. */
  method CopyCredentials(user: ValueSource?, password: ValueSource?)
    returns (user': ValueSource?, password': ValueSource?, ghost repr: set<object>)
    ensures fresh(repr) && SourceIn(user', repr) && SourceIn(password', repr)
    ensures SourceValue(user') == SourceValue(user) && SourceValue(password') == SourceValue(password)
  {
    user' := CopySource(user);
    password' := CopySource(password);
    repr := SourceObjects(user') + SourceObjects(password');
  }

  method CopyServerSpec(spec: ServerSpec, ghost repr: set<object>) returns (out: ServerSpec, ghost repr': set<object>)
    requires ServerSpecIn(spec, repr)
    ensures fresh(repr') && ServerSpecIn(out, repr') && ServerSpecValue(out, repr') == ServerSpecValue(spec, repr)
    ensures SameDetails(out, repr', spec, repr)
  {
    ghost var details, credentials;
    var plugins, volumes, superUserFrom, superUserPasswordFrom;
    plugins, volumes, details := CopyDetails(spec.plugins, spec.volumes, repr);
    superUserFrom, superUserPasswordFrom, credentials := CopyCredentials(spec.superUserFrom, spec.superUserPasswordFrom);
    repr' := details + credentials;
    VolumesInMore(volumes, details, repr');
    out := ServerSpec(plugins, volumes, spec.superUser, superUserFrom, spec.superUserPassword, superUserPasswordFrom,
                      spec.dbHost, spec.servicePort);
  }

  ghost function LabelObjects(meta: Meta): set<object> {
    if meta.labels == null then {} else {meta.labels}
  }

  class ServerObject {
    var meta: Meta
    var spec: ServerSpec
    var status: R.Status
    ghost var Repr: set<object>

    constructor (meta: Meta, spec: ServerSpec, status: R.Status, ghost repr: set<object>)
      requires ServerSpecIn(spec, repr) && meta.labels !in repr
      ensures Valid() && Repr == repr && this.meta == meta && this.spec == spec && this.status == status
    {
      this.meta, this.spec, this.status, this.Repr := meta, spec, status, repr;
    }

    /** All that the spec points to, however far, lies in `Repr`; the label map does not. */
    ghost predicate Valid()
      reads this, Repr
    {
      this !in Repr && meta.labels !in Repr && ServerSpecIn(spec, Repr)
    }

    function Value(): R.DatabaseServer
      requires Valid()
      reads this, Repr, meta.labels
    {
      R.Resource(MetaValue(meta), ServerSpecValue(spec, Repr), status)
    }

    /** An equal object that shares nothing mutable with this one. */
    method DeepCopy() returns (out: ServerObject)
      requires Valid()
      ensures out.Valid() && fresh(out) && fresh(out.Repr) && (out.meta.labels == null || fresh(out.meta.labels))
      ensures out.Value() == Value() && SameDetails(out.spec, out.Repr, spec, Repr)
    {
      var copiedMeta := CopyMeta(meta);
      var copiedSpec;
      ghost var repr;
      copiedSpec, repr := CopyServerSpec(spec, Repr);
      out := new ServerObject(copiedMeta, copiedSpec, status, repr);
    }

    method SetStatus(status: R.Status)
      requires Valid()
      modifies this`status
      ensures Valid() && Value() == old(Value()).(status := status)
    {
      this.status := status;
    }

    /** What a status update sends. The cached object stays as it is: the method modifies nothing. */
    method WithStatus(status: R.Status) returns (written: R.DatabaseServer)
      requires Valid()
      ensures written == Value().(status := status)
    {
      var copied := DeepCopy();
      copied.SetStatus(status);
      written := copied.Value();
    }

    /** Making the pod's metadata labels the cached object. */
    method MakePodMeta() returns (child: Meta)
      requires Valid()
      modifies meta.labels
      ensures Valid() && Value() == old(Value()).(meta := S.LabelledForPod(old(Value()).meta))
      ensures meta.labels != null ==> child.labels == meta.labels
    {
      child := PodMeta(meta);
    }
  }

  datatype SchemaSpec = SchemaSpec(
    database: string,
    dsn: string,
    dsnFrom: ValueSource?,
    source: string,
    sourceFrom: ValueSource?,
    version: int)

  ghost function SchemaObjects(spec: SchemaSpec): set<object>
    reads spec.dsnFrom, spec.sourceFrom
  {
    SourceObjects(spec.dsnFrom) + SourceObjects(spec.sourceFrom)
  }

  function SchemaSpecValue(spec: SchemaSpec): R.DatabaseSchemaSpec
    reads spec.dsnFrom, spec.sourceFrom, SchemaObjects(spec)
  {
    R.DatabaseSchemaSpec(spec.database, spec.dsn, SourceValue(spec.dsnFrom),
                         spec.source, SourceValue(spec.sourceFrom), spec.version)
  }

  class SchemaObject {
    var meta: Meta
    var spec: SchemaSpec
    var status: R.Status

    constructor (meta: Meta, spec: SchemaSpec, status: R.Status)
      ensures this.meta == meta && this.spec == spec && this.status == status
    {
      this.meta, this.spec, this.status := meta, spec, status;
    }

    ghost function Reachable(): set<object>
      reads this, spec.dsnFrom, spec.sourceFrom
    {
      {this} + LabelObjects(meta) + SchemaObjects(spec)
    }

    function Value(): R.DatabaseSchema
      reads this, meta.labels, spec.dsnFrom, spec.sourceFrom, SchemaObjects(spec)
    {
      R.Resource(MetaValue(meta), SchemaSpecValue(spec), status)
    }

    /** An equal object with the same two pointers: exactly these, and what they point to, are shared. */
    method DeepCopy() returns (out: SchemaObject)
      ensures out.Value() == Value()
      ensures out.spec.dsnFrom == spec.dsnFrom && out.spec.sourceFrom == spec.sourceFrom
      ensures out.Reachable() * Reachable() == SchemaObjects(spec)
      ensures fresh(out.Reachable() - SchemaObjects(spec))
    {
      var copiedMeta := CopyMeta(meta);
      out := new SchemaObject(copiedMeta, spec, status);
    }

    /** What a status update sends; in spite of the sharing, nothing of the cached object is modified. */
    method WithStatus(status: R.Status) returns (written: R.DatabaseSchema)
      ensures written == Value().(status := status)
    {
      var copied := DeepCopy();
      copied.status := status;
      written := copied.Value();
    }
  }
  /** What the value of a server and its details show: every field of the two objects. */
  lemma ServerValuesShowAll(a: ServerObject, b: ServerObject)
    requires a.Valid() && b.Valid() && a.Value() == b.Value()
    ensures SameMeta(a.meta, b.meta) && a.status == b.status
    ensures a.spec.superUser == b.spec.superUser && SameSource(a.spec.superUserFrom, b.spec.superUserFrom)
    ensures a.spec.superUserPassword == b.spec.superUserPassword
    ensures SameSource(a.spec.superUserPasswordFrom, b.spec.superUserPasswordFrom)
    ensures a.spec.dbHost == b.spec.dbHost && a.spec.servicePort == b.spec.servicePort
  {
    SourceValuesShowAll(a.spec.superUserFrom, b.spec.superUserFrom);
    SourceValuesShowAll(a.spec.superUserPasswordFrom, b.spec.superUserPasswordFrom);
  }

  /** The same for schemas. */
  lemma SchemaValuesShowAll(a: SchemaObject, b: SchemaObject)
    ensures a.Value() == b.Value() <==>
              && SameMeta(a.meta, b.meta) && a.status == b.status
              && a.spec.database == b.spec.database && a.spec.dsn == b.spec.dsn && a.spec.source == b.spec.source
              && a.spec.version == b.spec.version
              && SameSource(a.spec.dsnFrom, b.spec.dsnFrom) && SameSource(a.spec.sourceFrom, b.spec.sourceFrom)
  {
    SourceValuesShowAll(a.spec.dsnFrom, b.spec.dsnFrom);
    SourceValuesShowAll(a.spec.sourceFrom, b.spec.sourceFrom);
  }
}
