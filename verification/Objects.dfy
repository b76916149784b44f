/**
 The custom resources as the API package lays them out in memory: pointers to value sources,
 a user array behind the user list, a label map behind the metadata. Shows what the generated
 DeepCopy methods share with the original, and what the controller writes in place.
 */
module Objects {
  import R = Resources
  import D = DatabasePass
  import S = ServerPass

  /** A reference to one entry of a config map or of a secret. */
  class KeySelector {
    var name: string
    var entry: string

    constructor ()
      ensures Value() == R.EntryRef("", "")
    {
      name, entry := "", "";
    }

    function Value(): R.EntryRef
      reads this
    {
      R.EntryRef(name, entry)
    }

    method DeepCopyInto(out: KeySelector)
      modifies out
      ensures out.Value() == old(Value())
    {
      out.name, out.entry := name, entry;
    }
  }

  class ValueSource {
    var configMapKeyRef: KeySelector?
    var secretKeyRef: KeySelector?

    constructor ()
      ensures configMapKeyRef == null && secretKeyRef == null
    {
      configMapKeyRef, secretKeyRef := null, null;
    }

    ghost function Objects(): set<object>
      reads this
    {
      {this} + (if configMapKeyRef == null then {} else {configMapKeyRef})
             + (if secretKeyRef == null then {} else {secretKeyRef})
    }

    function Value(): R.ValueSource
      reads this, configMapKeyRef, secretKeyRef
    {
      R.ValueSource(if configMapKeyRef == null then R.None else R.Some(configMapKeyRef.Value()),
                    if secretKeyRef == null then R.None else R.Some(secretKeyRef.Value()))
    }

    method DeepCopyInto(out: ValueSource)
      requires out != this
      modifies out
      ensures out.Value() == Value() && fresh(out.Objects() - {out})
    {
      out.configMapKeyRef, out.secretKeyRef := configMapKeyRef, secretKeyRef;
      if configMapKeyRef != null {
        var ref := new KeySelector();
        configMapKeyRef.DeepCopyInto(ref);
        out.configMapKeyRef := ref;
      }
      if secretKeyRef != null {
        var ref := new KeySelector();
        secretKeyRef.DeepCopyInto(ref);
        out.secretKeyRef := ref;
      }
    }
  }

  ghost function SourceObjects(source: ValueSource?): set<object>
    reads source
  {
    if source == null then {} else source.Objects()
  }

  function SourceValue(source: ValueSource?): R.Option<R.ValueSource>
    reads source, SourceObjects(source)
  {
    if source == null then R.None else R.Some(source.Value())
  }

  ghost predicate SameSelector(a: KeySelector?, b: KeySelector?)
    reads a, b
  {
    (a == null <==> b == null) && (a != null && b != null ==> a.name == b.name && a.entry == b.entry)
  }

  ghost predicate SameSource(a: ValueSource?, b: ValueSource?)
    reads a, b, SourceObjects(a), SourceObjects(b)
  {
    (a == null <==> b == null) &&
    (a != null && b != null ==>
       SameSelector(a.configMapKeyRef, b.configMapKeyRef) && SameSelector(a.secretKeyRef, b.secretKeyRef))
  }

  /** Equal values are equal field by field, down to the selectors. */
  lemma SourceValuesShowAll(a: ValueSource?, b: ValueSource?)
    ensures SourceValue(a) == SourceValue(b) <==> SameSource(a, b)
  {}

  /** A copy of a pointer field: a new source, unless there is none. */
  method CopySource(source: ValueSource?) returns (out: ValueSource?)
    ensures SourceValue(out) == SourceValue(source) && fresh(SourceObjects(out))
  {
    if source == null { return null; }
    var copied := new ValueSource();
    source.DeepCopyInto(copied);
    out := copied;
  }

  /** Whether a source and what it points to lie within a set of objects. */
  ghost predicate SourceIn(source: ValueSource?, repr: set<object>)
    reads repr
  {
    source == null || (source in repr && source.Objects() <= repr)
  }

  datatype DatabaseUser = DatabaseUser(name: string, password: string, passwordFrom: ValueSource?, role: string)

  function UserValue(user: DatabaseUser): R.DatabaseUser
    reads user.passwordFrom, SourceObjects(user.passwordFrom)
  {
    R.DatabaseUser(user.name, user.password, SourceValue(user.passwordFrom), user.role)
  }

  method CopyUser(user: DatabaseUser) returns (out: DatabaseUser)
    ensures UserValue(out) == UserValue(user) && fresh(SourceObjects(out.passwordFrom))
  {
    var passwordFrom := CopySource(user.passwordFrom);
    out := user.(passwordFrom := passwordFrom);
  }

  ghost predicate UsersIn(users: seq<DatabaseUser>, repr: set<object>)
    reads repr
  {
    forall i :: 0 <= i < |users| ==> SourceIn(users[i].passwordFrom, repr)
  }

  function UsersValue(users: seq<DatabaseUser>, ghost repr: set<object>): (r: seq<R.DatabaseUser>)
    requires UsersIn(users, repr)
    reads repr
    ensures |r| == |users| && forall i :: 0 <= i < |users| ==> r[i] == UserValue(users[i])
  {
    seq(|users|, i requires 0 <= i < |users| && UsersIn(users, repr) reads repr => UserValue(users[i]))
  }

  ghost predicate SameUsers(a: seq<DatabaseUser>, reprA: set<object>, b: seq<DatabaseUser>, reprB: set<object>)
    requires UsersIn(a, reprA) && UsersIn(b, reprB)
    reads reprA, reprB
  {
    |a| == |b| && forall i :: 0 <= i < |a| ==>
      a[i].name == b[i].name && a[i].password == b[i].password && a[i].role == b[i].role &&
      SameSource(a[i].passwordFrom, b[i].passwordFrom)
  }

  lemma UserValuesShowAll(a: seq<DatabaseUser>, reprA: set<object>, b: seq<DatabaseUser>, reprB: set<object>)
    requires UsersIn(a, reprA) && UsersIn(b, reprB)
    ensures UsersValue(a, reprA) == UsersValue(b, reprB) <==> SameUsers(a, reprA, b, reprB)
  {
    if |a| == |b| {
      forall i | 0 <= i < |a|
        ensures UserValue(a[i]) == UserValue(b[i]) <==>
                  a[i].name == b[i].name && a[i].password == b[i].password && a[i].role == b[i].role &&
                  SameSource(a[i].passwordFrom, b[i].passwordFrom)
      {
        SourceValuesShowAll(a[i].passwordFrom, b[i].passwordFrom);
      }
      assert SameUsers(a, reprA, b, reprB) ==> UsersValue(a, reprA) == UsersValue(b, reprB);
      assert UsersValue(a, reprA) == UsersValue(b, reprB) ==>
          forall i :: 0 <= i < |a| ==> UserValue(a[i]) == UsersValue(a, reprA)[i] == UserValue(b[i]);
    }
  }

  /** Copies the users one by one into a new array. */
  method CopyEach(users: array<DatabaseUser>, ghost repr: set<object>, out: array<DatabaseUser>)
    returns (ghost repr': set<object>)
    requires UsersIn(users[..], repr) && out !in repr && out != users && out.Length == users.Length
    modifies out
    ensures fresh(repr') && UsersIn(out[..], repr') && UsersIn(users[..], repr)
    ensures UsersValue(out[..], repr') == UsersValue(users[..], repr)
  {
    ghost var wanted := UsersValue(users[..], repr);
    repr' := {};
    for i := 0 to users.Length
      invariant fresh(repr') && UsersIn(users[..], repr) && UsersValue(users[..], repr) == wanted
      invariant forall k :: 0 <= k < i ==> SourceIn(out[k].passwordFrom, repr') && UserValue(out[k]) == wanted[k]
    {
      var user := CopyUser(users[i]);
      assert UserValue(user) == UserValue(users[i]) == wanted[i];
      repr' := repr' + SourceObjects(user.passwordFrom);
      out[i] := user;
    }
    assert UsersValue(out[..], repr') == wanted;
  }

  class Labels {
    var entries: map<string, string>

    constructor (entries: map<string, string>)
      ensures this.entries == entries
    {
      this.entries := entries;
    }
  }

  datatype Meta = Meta(key: R.Key, uid: string, version: nat, labels: Labels?)

  function MetaValue(meta: Meta): R.Meta
    reads meta.labels
  {
    R.Meta(meta.key, meta.uid, meta.version, if meta.labels == null then R.None else R.Some(meta.labels.entries))
  }

  ghost predicate SameMeta(a: Meta, b: Meta)
    reads a.labels, b.labels
  {
    a.key == b.key && a.uid == b.uid && a.version == b.version && (a.labels == null <==> b.labels == null) &&
    (a.labels != null && b.labels != null ==> a.labels.entries == b.labels.entries)
  }

  method CopyMeta(meta: Meta) returns (out: Meta)
    ensures MetaValue(out) == MetaValue(meta) && (out.labels == null || fresh(out.labels))
  {
    out := meta;
    if meta.labels != null {
      var labels := new Labels(meta.labels.entries);
      out := meta.(labels := labels);
    }
  }

  /**
   Metadata for a child with the same name: it shares the label map of its owner, and the
   label it needs is written into that shared map.
   */
  method ObjMeta(meta: Meta) returns (child: Meta)
    modifies meta.labels
    ensures MetaValue(meta) == D.Labelled(old(MetaValue(meta)))
    ensures child.key == meta.key && child.labels != null
    ensures if meta.labels == null then fresh(child.labels) else child.labels == meta.labels
    ensures child.labels.entries ==
            old(if meta.labels == null then map[] else meta.labels.entries)["controller" := meta.key.name]
  {
    var labels := meta.labels;
    if labels == null { labels := new Labels(map[]); }
    labels.entries := labels.entries["controller" := meta.key.name];
    child := Meta(meta.key, "", 0, labels);
  }

  /** The labels of a server's pod, which go into the shared map as well. */
  method PodMeta(meta: Meta) returns (child: Meta)
    modifies meta.labels
    ensures MetaValue(meta) == S.LabelledForPod(old(MetaValue(meta)))
    ensures child.key == meta.key && child.labels != null
    ensures if meta.labels == null then fresh(child.labels) else child.labels == meta.labels
    ensures child.labels.entries ==
            old(if meta.labels == null then map[] else meta.labels.entries)
              ["controller" := meta.key.name]["databaseserver" := meta.key.name]
  {
    var labels := meta.labels;
    if labels == null { labels := new Labels(map[]); }
    labels.entries := labels.entries["controller" := meta.key.name];
    labels.entries := labels.entries["databaseserver" := meta.key.name];
    child := Meta(meta.key, "", 0, labels);
  }

  datatype DatabaseSpec = DatabaseSpec(
    users: array?<DatabaseUser>,
    dsn: string,
    dsnFrom: ValueSource?,
    server: string,
    serverType: string)

  ghost predicate SpecIn(spec: DatabaseSpec, repr: set<object>)
    reads repr
  {
    (spec.users == null || (spec.users in repr && UsersIn(spec.users[..], repr))) && SourceIn(spec.dsnFrom, repr)
  }

  function SpecValue(spec: DatabaseSpec, ghost repr: set<object>): R.DatabaseSpec
    requires SpecIn(spec, repr)
    reads repr
  {
    R.DatabaseSpec(if spec.users == null then R.None else R.Some(UsersValue(spec.users[..], repr)),
                   spec.dsn, SourceValue(spec.dsnFrom), spec.server, spec.serverType)
  }

  /** A copy of the user array; an absent list stays absent. */
  method CopyUsers(users: array?<DatabaseUser>, ghost repr: set<object>)
    returns (out: array?<DatabaseUser>, ghost repr': set<object>)
    requires users == null || UsersIn(users[..], repr)
    ensures fresh(repr') && (out == null <==> users == null)
    ensures out != null ==>
              out in repr' && UsersIn(out[..], repr') && UsersValue(out[..], repr') == UsersValue(users[..], repr)
  {
    repr' := {};
    if users == null { return null, repr'; }
    out := new DatabaseUser[users.Length](_ => DatabaseUser("", "", null, ""));
    repr' := CopyEach(users, repr, out);
    repr' := repr' + {out};
  }

  /** Copies the users and the DSN source along with the plain fields. */
  method CopySpec(spec: DatabaseSpec, ghost repr: set<object>) returns (out: DatabaseSpec, ghost repr': set<object>)
    requires SpecIn(spec, repr)
    ensures fresh(repr') && SpecIn(out, repr') && SpecValue(out, repr') == SpecValue(spec, repr)
  {
    var dsnFrom := CopySource(spec.dsnFrom);
    var users;
    users, repr' := CopyUsers(spec.users, repr);
    if users != null { assert UsersValue(users[..], repr' + SourceObjects(dsnFrom)) == UsersValue(users[..], repr'); }
    repr' := repr' + SourceObjects(dsnFrom);
    out := spec.(users := users, dsnFrom := dsnFrom);
  }

  class DatabaseObject {
    var meta: Meta
    var spec: DatabaseSpec
    var status: R.Status
    ghost var Repr: set<object>

    constructor ()
      ensures Valid() && Repr == {} && meta.labels == null
    {
      meta, spec := Meta(R.Key("", ""), "", 0, null), DatabaseSpec(null, "", null, "", "");
      status, Repr := R.Status(R.Unset, R.NoMessage), {};
    }

    /** All that the spec points to, however far, lies in `Repr`; the label map does not. */
    ghost predicate Valid()
      reads this, Repr
    {
      this !in Repr && meta.labels !in Repr && SpecIn(spec, Repr)
    }

    function Value(): R.Database
      requires Valid()
      reads this, Repr, meta.labels
    {
      R.Resource(MetaValue(meta), SpecValue(spec, Repr), status)
    }

    method DeepCopyInto(out: DatabaseObject)
      requires Valid() && out != this && out !in Repr
      modifies out
      ensures Valid() && Value() == old(Value())
      ensures out.Valid() && fresh(out.Repr) && (out.meta.labels == null || fresh(out.meta.labels))
      ensures out.Value() == Value()
    {
      var copiedMeta := CopyMeta(meta);
      var copiedSpec;
      ghost var repr;
      copiedSpec, repr := CopySpec(spec, Repr);
      out.Assign(copiedMeta, copiedSpec, status, repr);
    }

    method Assign(meta: Meta, spec: DatabaseSpec, status: R.Status, ghost repr: set<object>)
      requires SpecIn(spec, repr) && this !in repr && meta.labels !in repr
      modifies this
      ensures Valid() && Repr == repr && this.meta == meta
      ensures Value() == R.Resource(old(MetaValue(meta)), old(SpecValue(spec, repr)), status)
    {
      this.meta, this.spec, this.status, this.Repr := meta, spec, status, repr;
    }

    /** An equal object that shares nothing mutable with this one. */
    method DeepCopy() returns (out: DatabaseObject)
      requires Valid()
      ensures out.Valid() && fresh(out) && fresh(out.Repr) && (out.meta.labels == null || fresh(out.meta.labels))
      ensures out.Value() == Value()
    {
      out := new DatabaseObject();
      DeepCopyInto(out);
    }

    method SetStatus(status: R.Status)
      requires Valid()
      modifies this`status
      ensures Valid() && Value() == old(Value()).(status := status)
    {
      this.status := status;
    }

    /** What a status update sends. The cached object stays as it is: the method modifies nothing. */
    method WithStatus(status: R.Status) returns (written: R.Database)
      requires Valid()
      ensures written == Value().(status := status)
    {
      var copied := DeepCopy();
      copied.SetStatus(status);
      written := copied.Value();
    }

    /** A looked-up password goes into the user array of the cached object itself. */
    method StorePassword(i: nat, password: string)
      requires Valid() && spec.users != null && i < spec.users.Length
      modifies spec.users
      ensures Valid() && Value() == D.WithPassword(old(Value()), i, password)
    {
      ghost var before := UsersValue(spec.users[..], Repr);
      spec.users[i] := spec.users[i].(password := password);
      assert forall k :: 0 <= k < spec.users.Length ==>
          UserValue(spec.users[k]) == if k == i then before[i].(password := password) else before[k];
      assert UsersValue(spec.users[..], Repr) == before[i := before[i].(password := password)];
    }

    /** So does the label of a child's metadata: into the label map of the cached object. */
    method ChildMeta() returns (child: Meta)
      requires Valid()
      modifies meta.labels
      ensures Valid() && Value() == old(Value()).(meta := D.Labelled(old(Value()).meta))
      ensures meta.labels != null ==> child.labels == meta.labels
    {
      child := ObjMeta(meta);
    }
  }
  /** What the value of a Database shows: equal values are equal in every field of the two objects. */
  lemma ValuesShowAll(a: DatabaseObject, b: DatabaseObject)
    requires a.Valid() && b.Valid()
    ensures a.Value() == b.Value() <==>
              && SameMeta(a.meta, b.meta) && a.status == b.status
              && a.spec.dsn == b.spec.dsn && a.spec.server == b.spec.server && a.spec.serverType == b.spec.serverType
              && SameSource(a.spec.dsnFrom, b.spec.dsnFrom)
              && (a.spec.users == null <==> b.spec.users == null)
              && (a.spec.users != null && b.spec.users != null ==>
                    SameUsers(a.spec.users[..], a.Repr, b.spec.users[..], b.Repr))
  {
    SourceValuesShowAll(a.spec.dsnFrom, b.spec.dsnFrom);
    if a.spec.users != null && b.spec.users != null {
      UserValuesShowAll(a.spec.users[..], a.Repr, b.spec.users[..], b.Repr);
    }
  }
}
