/** The volumes, mounts and init container that a collector's common fields get for file storage and file exporters. */
module Volumes {
  import opened Names
  import opened Api
  import Generators

  datatype Mount = Mount(name: string, path: string, readOnly: bool)

  // A host path, created if it is missing or not.
  datatype Volume = Volume(name: string, path: string, create: bool)

  datatype Container = Container(name: string, args: string, mounts: seq<Mount>)

  // The part of the OpenTelemetry common fields that is changed here.
  datatype Fields = Fields(
    image: string,
    serviceAccount: string,
    args: map<string, string>,
    volumes: seq<Volume>,
    mounts: seq<Mount>,
    initContainers: seq<Container>)

  // ---------------------------------------------------------------------------
  // Names and wishes

  function Lower(c: char): char {
    if 'A' <= c <= 'Z' then c - 'A' + 'a' else c
  }

  function TrimLeft(path: string): string {
    if path != "" && path[0] == '/' then TrimLeft(path[1..]) else path
  }

  function TrimRight(path: string): string {
    if path != "" && path[|path| - 1] == '/' then TrimRight(path[..|path| - 1]) else path
  }

  function SanitizePathForVolumeName(path: string): string {
    var trimmed := TrimRight(TrimLeft(path));
    seq(|trimmed|, i requires 0 <= i < |trimmed| => Lower(if trimmed[i] == '/' then '-' else trimmed[i]))
  }

  function FileExporterMount(directory: string): Mount {
    Mount("file-exporter-" + SanitizePathForVolumeName(directory), directory, false)
  }

  function BufferMount(tenant: Tenant): Mount {
    Mount("buffervolume-" + tenant.name, Generators.DetermineFileStorageDirectory(tenant), false)
  }

  function TenantMounts(tenants: seq<Tenant>): seq<Mount> {
    if tenants == [] then []
    else
      var n := |tenants| - 1;
      TenantMounts(tenants[..n]) + if tenants[n].fileStorage then [BufferMount(tenants[n])] else []
  }

  function OutputMounts(outputs: seq<OutputWithSecretData>): seq<Mount> {
    if outputs == [] then []
    else
      var n := |outputs| - 1;
      OutputMounts(outputs[..n])
      + if File in outputs[n].output.kinds then [FileExporterMount(outputs[n].output.directory)] else []
  }

  const LOG_MOUNTS := [Mount("varlog", "/var/log", true),
                       Mount("varlibdockercontainers", "/var/lib/docker/containers", true)]

  function VolumeNames(volumes: seq<Volume>): set<string> {
    set v | v in volumes :: v.name
  }

  function MountNames(mounts: seq<Mount>): set<string> {
    set m | m in mounts :: m.name
  }

  // The wanted mounts whose name is still free, each name once.
  function Missing(taken: set<string>, wanted: seq<Mount>): seq<Mount> {
    if wanted == [] then []
    else
      var n := |wanted| - 1;
      var rest := Missing(taken, wanted[..n]);
      rest + if wanted[n].name in taken + MountNames(rest) then [] else [wanted[n]]
  }

  function VolumesFor(mounts: seq<Mount>, create: bool): seq<Volume> {
    seq(|mounts|, i requires 0 <= i < |mounts| => Volume(mounts[i].name, mounts[i].path, create))
  }

  function Chmod(mount: Mount): string {
    "chmod -R 777 " + mount.path
  }

  function Chmods(mounts: seq<Mount>): seq<string> {
    seq(|mounts|, i requires 0 <= i < |mounts| => Chmod(mounts[i]))
  }

  function JoinCommands(commands: seq<string>): string {
    if commands == [] then ""
    else if |commands| == 1 then commands[0]
    else JoinCommands(commands[..|commands| - 1]) + " && " + commands[|commands| - 1]
  }

  function WithMounts(f: Fields, mounts: seq<Mount>, create: bool): Fields {
    f.(volumes := f.volumes + VolumesFor(mounts, create), mounts := f.mounts + mounts)
  }

  function InitContainer(mounts: seq<Mount>): Container {
    Container("init-chmod", JoinCommands(Chmods(mounts)), mounts)
  }

  // What handleVolumes makes of the fields: whatever is missing, with one chmod for each mount.
  function VolumesHandled(f: Fields, tenants: seq<Tenant>, outputs: seq<OutputWithSecretData>): Fields {
    var added := Missing(VolumeNames(f.volumes), TenantMounts(tenants) + OutputMounts(outputs));
    var g := WithMounts(f, added, true);
    if added == [] then g else g.(initContainers := g.initContainers + [InitContainer(added)])
  }

  const AXOFLOW_REPOSITORY := "ghcr.io/axoflow/axoflow-otel-collector"
  const IMAGE := AXOFLOW_REPOSITORY + "/axoflow-otel-collector:0.156.0-axoflow.5"

  function SettingsSet(f: Fields, additionalArgs: map<string, string>, serviceAccount: string): Fields {
    f.(image := if f.image == "" then IMAGE else f.image, serviceAccount := serviceAccount,
       args := f.args + additionalArgs)
  }

  function DefaultsSet(f: Fields, additionalArgs: map<string, string>, serviceAccount: string): Fields {
    WithMounts(SettingsSet(f, additionalArgs, serviceAccount), Missing(VolumeNames(f.volumes), LOG_MOUNTS), false)
  }

  // ---------------------------------------------------------------------------
  // Missing

  lemma MissingStep(taken: set<string>, wanted: seq<Mount>, m: Mount)
    ensures var rest := Missing(taken, wanted);
            Missing(taken, wanted + [m]) == rest + if m.name in taken + MountNames(rest) then [] else [m]
  {
    assert (wanted + [m])[..|wanted|] == wanted;
  }

  lemma {:induction false} MissingMembers(taken: set<string>, wanted: seq<Mount>)
    ensures var added := Missing(taken, wanted);
            && (forall m | m in added :: m in wanted && m.name !in taken)
            && (forall m | m in wanted :: m.name in taken + MountNames(added))
            && (forall i, j | 0 <= i < j < |added| :: added[i].name != added[j].name)
  {
    if wanted != [] {
      var n := |wanted| - 1;
      MissingMembers(taken, wanted[..n]);
      assert wanted == wanted[..n] + [wanted[n]];
      var rest := Missing(taken, wanted[..n]);
      assert MountNames(rest + [wanted[n]]) == MountNames(rest) + {wanted[n].name};
    }
  }

  lemma {:induction false} NothingMissing(taken: set<string>, wanted: seq<Mount>)
    requires forall m | m in wanted :: m.name in taken
    ensures Missing(taken, wanted) == []
  {
    if wanted != [] {
      NothingMissing(taken, wanted[..|wanted| - 1]);
    }
  }

  lemma {:induction false} MissingTogether(taken: set<string>, a: seq<Mount>, b: seq<Mount>)
    ensures Missing(taken, a + b)
            == Missing(taken, a) + Missing(taken + MountNames(Missing(taken, a)), b)
  {
    var first := Missing(taken, a);
    if b == [] {
      assert a + b == a;
    } else {
      var n := |b| - 1;
      assert (a + b)[..|a + b| - 1] == a + b[..n];
      MissingTogether(taken, a, b[..n]);
      var second := Missing(taken + MountNames(first), b[..n]);
      assert MountNames(first + second) == MountNames(first) + MountNames(second);
    }
  }

  // Every wanted mount is made exactly if all the wanted names are free and no two mounts share one.
  lemma AllMadeIff(taken: set<string>, wanted: seq<Mount>)
    ensures (forall m | m in wanted :: m in Missing(taken, wanted)) <==>
            ((forall m | m in wanted :: m.name !in taken)
             && forall a, b | a in wanted && b in wanted && a.name == b.name :: a == b)
  {
    var added := Missing(taken, wanted);
    MissingMembers(taken, wanted);
    if forall m | m in wanted :: m in added {
      forall a, b | a in wanted && b in wanted && a.name == b.name
        ensures a == b
      {
        var i :| 0 <= i < |added| && added[i] == a;
        var j :| 0 <= j < |added| && added[j] == b;
      }
    } else {
      var m :| m in wanted && m !in added;
      if m.name !in taken {
        var other :| other in added && other.name == m.name;
      }
    }
  }

  // ---------------------------------------------------------------------------
  // The fields, changed in place

  class CommonFields {
    var image: string
    var serviceAccount: string
    var args: map<string, string>
    var volumes: seq<Volume>
    var mounts: seq<Mount>
    var initContainers: seq<Container>

    constructor (f: Fields)
      ensures Value() == f
    {
      image, serviceAccount, args := f.image, f.serviceAccount, f.args;
      volumes, mounts, initContainers := f.volumes, f.mounts, f.initContainers;
    }

    ghost function Value(): Fields
      reads this
    {
      Fields(image, serviceAccount, args, volumes, mounts, initContainers)
    }
  }

  method VolumeExists(volumes: seq<Volume>, name: string) returns (found: bool)
    ensures found <==> name in VolumeNames(volumes)
  {
    for i := 0 to |volumes|
      invariant name !in VolumeNames(volumes[..i])
    {
      assert volumes[..i + 1] == volumes[..i] + [volumes[i]];
      if volumes[i].name == name {
        return true;
      }
    }
    assert volumes[..|volumes|] == volumes;
    return false;
  }

  lemma WithMountsNames(f: Fields, mounts: seq<Mount>, create: bool)
    ensures VolumeNames(WithMounts(f, mounts, create).volumes) == VolumeNames(f.volumes) + MountNames(mounts)
  {
    var volumes := VolumesFor(mounts, create);
    forall n
      ensures n in VolumeNames(volumes) <==> n in MountNames(mounts)
    {
      if n in MountNames(mounts) {
        var i :| 0 <= i < |mounts| && mounts[i].name == n;
        assert volumes[i] in volumes;
      }
      if n in VolumeNames(volumes) {
        var i :| 0 <= i < |volumes| && volumes[i].name == n;
        assert mounts[i] in mounts;
      }
    }
    assert VolumeNames(f.volumes + volumes) == VolumeNames(f.volumes) + VolumeNames(volumes);
  }

  lemma WithOneMore(f: Fields, mounts: seq<Mount>, m: Mount, create: bool)
    ensures var g := WithMounts(f, mounts, create);
            WithMounts(f, mounts + [m], create)
            == g.(volumes := g.volumes + [Volume(m.name, m.path, create)], mounts := g.mounts + [m])
    ensures Chmods(mounts + [m]) == Chmods(mounts) + [Chmod(m)]
  {
    assert VolumesFor(mounts + [m], create) == VolumesFor(mounts, create) + [Volume(m.name, m.path, create)];
    assert Chmods(mounts + [m]) == Chmods(mounts) + [Chmod(m)];
  }

  lemma WithNoMounts(f: Fields, create: bool)
    ensures WithMounts(f, [], create) == f && Chmods([]) == []
  {
    assert f.volumes + VolumesFor([], create) == f.volumes && f.mounts + [] == f.mounts;
  }

  // One wanted mount; it is skipped when a volume has its name.
  method AppendVolume(fields: CommonFields, m: Mount, create: bool, ghost f: Fields, ghost wanted: seq<Mount>)
    returns (missing: bool)
    requires fields.Value() == WithMounts(f, Missing(VolumeNames(f.volumes), wanted), create)
    modifies fields`volumes, fields`mounts
    ensures fields.Value() == WithMounts(f, Missing(VolumeNames(f.volumes), wanted + [m]), create)
    ensures Missing(VolumeNames(f.volumes), wanted + [m])
            == Missing(VolumeNames(f.volumes), wanted) + (if missing then [m] else [])
  {
    hide VolumeNames, Missing, WithMounts, MountNames;
    ghost var before := Missing(VolumeNames(f.volumes), wanted);
    MissingStep(VolumeNames(f.volumes), wanted, m);
    WithMountsNames(f, before, create);
    WithOneMore(f, before, m, create);
    assert before + [] == before;
    var found := VolumeExists(fields.volumes, m.name);
    assert fields.volumes == fields.Value().volumes;
    if !found {
      fields.mounts := fields.mounts + [m];
      fields.volumes := fields.volumes + [Volume(m.name, m.path, create)];
    }
    missing := !found;
  }

  // The fields, and what was collected for the init container, after the wanted mounts were appended.
  ghost predicate Appended(now: Fields, f: Fields, wanted: seq<Mount>, mountsForInit: seq<Mount>, chmods: seq<string>) {
    && mountsForInit == Missing(VolumeNames(f.volumes), wanted)
    && chmods == Chmods(mountsForInit)
    && now == WithMounts(f, mountsForInit, true)
  }

  lemma NoneAppended(f: Fields)
    ensures Appended(f, f, [], [], [])
  {
    WithNoMounts(f, true);
  }

  method AppendWritable(fields: CommonFields, m: Mount, mountsForInit: seq<Mount>, chmods: seq<string>,
                        ghost f: Fields, ghost wanted: seq<Mount>)
    returns (moreMounts: seq<Mount>, moreChmods: seq<string>)
    requires Appended(fields.Value(), f, wanted, mountsForInit, chmods)
    modifies fields`volumes, fields`mounts
    ensures Appended(fields.Value(), f, wanted + [m], moreMounts, moreChmods)
  {
    hide VolumeNames, Missing, WithMounts, MountNames, Chmods, Chmod;
    moreMounts, moreChmods := mountsForInit, chmods;
    WithOneMore(f, mountsForInit, m, true);
    var missing := AppendVolume(fields, m, true, f, wanted);
    if missing {
      moreMounts := mountsForInit + [m];
      moreChmods := chmods + [Chmod(m)];
    } else {
      assert mountsForInit + [] == mountsForInit;
    }
  }

  method AppendAdditionalVolumesForTenantsFileStorage(fields: CommonFields, tenants: seq<Tenant>)
    returns (mountsForInit: seq<Mount>, chmods: seq<string>)
    modifies fields`volumes, fields`mounts
    ensures Appended(fields.Value(), old(fields.Value()), TenantMounts(tenants), mountsForInit, chmods)
  {
    hide Appended, BufferMount;
    mountsForInit, chmods := [], [];
    ghost var f := fields.Value();
    NoneAppended(f);
    for i := 0 to |tenants|
      invariant Appended(fields.Value(), f, TenantMounts(tenants[..i]), mountsForInit, chmods)
    {
      ghost var wanted := TenantMounts(tenants[..i]);
      assert tenants[..i + 1][..i] == tenants[..i] && wanted + [] == wanted;
      if tenants[i].fileStorage {
        mountsForInit, chmods := AppendWritable(fields, BufferMount(tenants[i]), mountsForInit, chmods, f, wanted);
      }
    }
    assert tenants[..|tenants|] == tenants;
  }

  // A directory that was dealt with already has a volume.
  ghost predicate Processed(volumes: seq<Volume>, processedMountPaths: set<string>) {
    forall p | p in processedMountPaths :: FileExporterMount(p).name in VolumeNames(volumes)
  }

  lemma ProcessedAgain(now: Fields, f: Fields, wanted: seq<Mount>, mountsForInit: seq<Mount>, chmods: seq<string>,
                       processedMountPaths: set<string>, path: string)
    requires Appended(now, f, wanted, mountsForInit, chmods)
    requires Processed(now.volumes, processedMountPaths) && path in processedMountPaths
    ensures Appended(now, f, wanted + [FileExporterMount(path)], mountsForInit, chmods)
  {
    WithMountsNames(f, mountsForInit, true);
    MissingStep(VolumeNames(f.volumes), wanted, FileExporterMount(path));
  }

  lemma ProcessedStep(before: Fields, now: Fields, f: Fields, wanted: seq<Mount>, first: seq<Mount>,
                      firstChmods: seq<string>,
                      second: seq<Mount>, secondChmods: seq<string>, processedMountPaths: set<string>, path: string)
    requires Appended(before, f, wanted, first, firstChmods)
    requires Appended(now, f, wanted + [FileExporterMount(path)], second, secondChmods)
    requires Processed(before.volumes, processedMountPaths)
    ensures Processed(now.volumes, processedMountPaths + {path})
  {
    WithMountsNames(f, first, true);
    WithMountsNames(f, second, true);
    MissingStep(VolumeNames(f.volumes), wanted, FileExporterMount(path));
  }

  method AppendFileExporterVolume(fields: CommonFields, outputs: seq<OutputWithSecretData>)
    returns (mountsForInit: seq<Mount>, chmods: seq<string>)
    modifies fields`volumes, fields`mounts
    ensures Appended(fields.Value(), old(fields.Value()), OutputMounts(outputs), mountsForInit, chmods)
  {
    hide Appended, Processed, FileExporterMount;
    mountsForInit, chmods := [], [];
    ghost var f := fields.Value();
    NoneAppended(f);
    var processedMountPaths: set<string> := {};
    NoneProcessed(f.volumes);
    for i := 0 to |outputs|
      invariant Appended(fields.Value(), f, OutputMounts(outputs[..i]), mountsForInit, chmods)
      invariant Processed(fields.Value().volumes, processedMountPaths)
    {
      ghost var wanted, now, ms, cs := OutputMounts(outputs[..i]), fields.Value(), mountsForInit, chmods;
      assert outputs[..i + 1][..i] == outputs[..i] && wanted + [] == wanted;
      if File in outputs[i].output.kinds {
        var mountPath := outputs[i].output.directory;
        if mountPath in processedMountPaths {
          ProcessedAgain(now, f, wanted, ms, cs, processedMountPaths, mountPath);
        } else {
          mountsForInit, chmods :=
            AppendWritable(fields, FileExporterMount(mountPath), mountsForInit, chmods, f, wanted);
          ProcessedStep(now, fields.Value(), f, wanted, ms, cs, mountsForInit, chmods, processedMountPaths, mountPath);
          processedMountPaths := processedMountPaths + {mountPath};
        }
      }
    }
    assert outputs[..|outputs|] == outputs;
  }

  lemma NoneProcessed(volumes: seq<Volume>)
    ensures Processed(volumes, {})
  {
  }

  lemma WithMore(f: Fields, a: seq<Mount>, b: seq<Mount>, create: bool)
    ensures WithMounts(WithMounts(f, a, create), b, create) == WithMounts(f, a + b, create)
    ensures Chmods(a + b) == Chmods(a) + Chmods(b)
  {
    assert VolumesFor(a + b, create) == VolumesFor(a, create) + VolumesFor(b, create);
    assert f.volumes + VolumesFor(a, create) + VolumesFor(b, create) == f.volumes + VolumesFor(a + b, create);
    assert f.mounts + a + b == f.mounts + (a + b);
    assert Chmods(a + b) == Chmods(a) + Chmods(b);
  }

  method HandleVolumes(fields: CommonFields, tenants: seq<Tenant>, outputs: seq<OutputWithSecretData>)
    modifies fields
    ensures fields.Value() == VolumesHandled(old(fields.Value()), tenants, outputs)
  {
    hide VolumeNames, WithMounts, MountNames, Missing, TenantMounts, OutputMounts, Chmods, JoinCommands;
    ghost var f := fields.Value();
    var mountsForInit, chmods := AppendAdditionalVolumesForTenantsFileStorage(fields, tenants);
    assert fields.volumes == fields.Value().volumes;
    WithMountsNames(f, mountsForInit, true);
    var more, chmods2 := AppendFileExporterVolume(fields, outputs);
    MissingTogether(VolumeNames(f.volumes), TenantMounts(tenants), OutputMounts(outputs));
    WithMore(f, mountsForInit, more, true);
    mountsForInit := mountsForInit + more;
    chmods := chmods + chmods2;
    ChmodEach(mountsForInit);
    if |chmods| > 0 {
      fields.initContainers := fields.initContainers + [Container("init-chmod", JoinCommands(chmods), mountsForInit)];
    }
  }

  lemma ChmodEach(mounts: seq<Mount>)
    ensures |Chmods(mounts)| == |mounts|
  {
  }

  method SetOtelCommonFieldsDefaults(fields: CommonFields, additionalArgs: map<string, string>, serviceAccount: string)
    modifies fields
    ensures fields.Value() == DefaultsSet(old(fields.Value()), additionalArgs, serviceAccount)
  {
    hide VolumeNames, WithMounts, MountNames, Missing;
    if fields.image == "" {
      fields.image := IMAGE;
    }
    fields.serviceAccount := serviceAccount;
    fields.args := fields.args + additionalArgs;
    ghost var f := fields.Value();
    NoneMissing(f);
    for i := 0 to |LOG_MOUNTS|
      invariant fields.Value() == WithMounts(f, Missing(VolumeNames(f.volumes), LOG_MOUNTS[..i]), false)
    {
      assert LOG_MOUNTS[..i + 1] == LOG_MOUNTS[..i] + [LOG_MOUNTS[i]];
      var _ := AppendVolume(fields, LOG_MOUNTS[i], false, f, LOG_MOUNTS[..i]);
    }
    assert LOG_MOUNTS[..|LOG_MOUNTS|] == LOG_MOUNTS;
  }

  lemma NoneMissing(f: Fields)
    ensures WithMounts(f, Missing(VolumeNames(f.volumes), LOG_MOUNTS[..0]), false) == f
  {
    WithNoMounts(f, false);
  }

  // ---------------------------------------------------------------------------
  // What the update keeps and adds

  predicate UniqueNames(volumes: seq<Volume>) {
    forall i, j | 0 <= i < j < |volumes| :: volumes[i].name != volumes[j].name
  }

  // Both methods, as they run on a collector that is not in dry-run mode.
  function Configured(f: Fields, tenants: seq<Tenant>, outputs: seq<OutputWithSecretData>,
                      additionalArgs: map<string, string>, serviceAccount: string): Fields
  {
    DefaultsSet(VolumesHandled(f, tenants, outputs), additionalArgs, serviceAccount)
  }

  lemma MissingStaysUnique(f: Fields, wanted: seq<Mount>, create: bool)
    requires UniqueNames(f.volumes)
    ensures UniqueNames(WithMounts(f, Missing(VolumeNames(f.volumes), wanted), create).volumes)
  {
    var added := Missing(VolumeNames(f.volumes), wanted);
    MissingMembers(VolumeNames(f.volumes), wanted);
    var all := f.volumes + VolumesFor(added, create);
    forall i, j | 0 <= i < j < |all|
      ensures all[i].name != all[j].name
    {
      if i < |f.volumes| && |f.volumes| <= j {
        assert all[i] in f.volumes && added[j - |f.volumes|] in added;
      }
    }
  }

  predicate SamePlaces(volumes: seq<Volume>, mounts: seq<Mount>) {
    && |volumes| == |mounts|
    && forall k | 0 <= k < |volumes| ::
         && volumes[k].name == mounts[k].name && volumes[k].path == mounts[k].path
         && volumes[k].create == !mounts[k].readOnly
  }

  // What was there stays in front, and every added volume has the mount of its name and path.
  predicate Paired(f: Fields, g: Fields) {
    && f.volumes <= g.volumes && f.mounts <= g.mounts && f.initContainers <= g.initContainers
    && SamePlaces(g.volumes[|f.volumes|..], g.mounts[|f.mounts|..])
  }

  lemma PairedThrough(f: Fields, g: Fields, h: Fields)
    requires Paired(f, g) && Paired(g, h)
    ensures Paired(f, h)
  {
    assert h.volumes[|f.volumes|..] == g.volumes[|f.volumes|..] + h.volumes[|g.volumes|..];
    assert h.mounts[|f.mounts|..] == g.mounts[|f.mounts|..] + h.mounts[|g.mounts|..];
  }

  lemma SamePlacesFor(mounts: seq<Mount>, create: bool)
    requires forall m | m in mounts :: m.readOnly == !create
    ensures SamePlaces(VolumesFor(mounts, create), mounts)
  {
    assert forall k | 0 <= k < |mounts| :: mounts[k] in mounts;
  }

  lemma WithMountsPaired(f: Fields, mounts: seq<Mount>, create: bool)
    requires forall m | m in mounts :: m.readOnly == !create
    ensures Paired(f, WithMounts(f, mounts, create))
  {
    var g := WithMounts(f, mounts, create);
    var volumes := VolumesFor(mounts, create);
    SamePlacesFor(mounts, create);
    hide SamePlaces, VolumesFor;
    assert g.volumes == f.volumes + volumes && g.mounts == f.mounts + mounts;
    assert g.volumes[|f.volumes|..] == volumes && g.mounts[|f.mounts|..] == mounts;
  }

  lemma SettingsPaired(f: Fields, g: Fields)
    requires g.volumes == f.volumes && g.mounts == f.mounts && f.initContainers <= g.initContainers
    ensures Paired(f, g)
  {
    assert g.volumes[|f.volumes|..] == [] && g.mounts[|f.mounts|..] == [];
  }

  // A command that opens each path to everybody, one after the other as long as that succeeds.
  function OpensAll(mounts: seq<Mount>): string
    requires mounts != []
  {
    "chmod -R 777 " + mounts[0].path + if |mounts| == 1 then "" else " && " + OpensAll(mounts[1..])
  }

  // If mounts were added, one more init container has them all and opens them.
  predicate Initialized(before: seq<Container>, after: seq<Container>, added: seq<Mount>) {
    after == before + if added == [] then [] else [Container("init-chmod", OpensAll(added), added)]
  }

  lemma {:induction false} JoinedFromFront(commands: seq<string>)
    requires |commands| > 1
    ensures JoinCommands(commands) == commands[0] + (" && " + JoinCommands(commands[1..]))
  {
    var n := |commands| - 1;
    if n > 1 {
      JoinedFromFront(commands[..n]);
      assert commands[1..][..n - 1] == commands[..n][1..];
      assert JoinCommands(commands[1..]) == JoinCommands(commands[..n][1..]) + " && " + commands[n];
    }
  }

  lemma {:induction false} ChmodsOpenAll(mounts: seq<Mount>)
    requires mounts != []
    ensures JoinCommands(Chmods(mounts)) == OpensAll(mounts)
  {
    if |mounts| > 1 {
      JoinedFromFront(Chmods(mounts));
      assert Chmods(mounts)[1..] == Chmods(mounts[1..]);
      ChmodsOpenAll(mounts[1..]);
    } else {
      assert JoinCommands(Chmods(mounts)) == Chmods(mounts)[0];
    }
  }

  lemma InitContainerOpens(f: Fields, tenants: seq<Tenant>, outputs: seq<OutputWithSecretData>)
    ensures var g := VolumesHandled(f, tenants, outputs);
            Initialized(f.initContainers, g.initContainers, g.mounts[|f.mounts|..])
  {
    hide Missing, VolumeNames, TenantMounts, OutputMounts, JoinCommands, Chmods, OpensAll;
    var added := Missing(VolumeNames(f.volumes), TenantMounts(tenants) + OutputMounts(outputs));
    if added != [] {
      ChmodsOpenAll(added);
    }
  }

  // Volume names stay unique and every added volume is mounted. The init container mounts what handleVolumes
  // added, with one chmod for each mount.
  lemma VolumesStayConsistent(f: Fields, tenants: seq<Tenant>, outputs: seq<OutputWithSecretData>,
                              additionalArgs: map<string, string>, serviceAccount: string)
    requires UniqueNames(f.volumes)
    ensures var g := Configured(f, tenants, outputs, additionalArgs, serviceAccount);
            UniqueNames(g.volumes) && Paired(f, g)
    ensures var g := VolumesHandled(f, tenants, outputs);
            Initialized(f.initContainers, g.initContainers, g.mounts[|f.mounts|..])
  {
    InitContainerOpens(f, tenants, outputs);
    hide Missing, SanitizePathForVolumeName, Paired, UniqueNames, VolumeNames;
    var wanted := TenantMounts(tenants) + OutputMounts(outputs);
    var added := Missing(VolumeNames(f.volumes), wanted);
    var h := VolumesHandled(f, tenants, outputs);
    MissingStaysUnique(f, wanted, true);
    MissingStaysUnique(SettingsSet(h, additionalArgs, serviceAccount), LOG_MOUNTS, false);
    MissingMembers(VolumeNames(f.volumes), wanted);
    MissingMembers(VolumeNames(h.volumes), LOG_MOUNTS);
    Writable(tenants, outputs);
    assert h.mounts[|f.mounts|..] == added;
    var settled := SettingsSet(h, additionalArgs, serviceAccount);
    WithMountsPaired(f, added, true);
    SettingsPaired(WithMounts(f, added, true), settled);
    WithMountsPaired(settled, Missing(VolumeNames(h.volumes), LOG_MOUNTS), false);
    PairedThrough(f, WithMounts(f, added, true), settled);
    PairedThrough(f, settled, Configured(f, tenants, outputs, additionalArgs, serviceAccount));
  }

  lemma {:induction false} TenantMountsAre(tenants: seq<Tenant>)
    ensures forall m :: m in TenantMounts(tenants) <==> exists t :: t in tenants && t.fileStorage && m == BufferMount(t)
  {
    if tenants != [] {
      var n := |tenants| - 1;
      assert tenants == tenants[..n] + [tenants[n]];
      TenantMountsAre(tenants[..n]);
    }
  }

  lemma {:induction false} OutputMountsAre(outputs: seq<OutputWithSecretData>)
    ensures forall m :: m in OutputMounts(outputs) <==>
              exists e :: e in outputs && File in e.output.kinds && m == FileExporterMount(e.output.directory)
  {
    hide SanitizePathForVolumeName;
    if outputs != [] {
      var n := |outputs| - 1;
      assert outputs == outputs[..n] + [outputs[n]];
      OutputMountsAre(outputs[..n]);
    }
  }

  lemma Writable(tenants: seq<Tenant>, outputs: seq<OutputWithSecretData>)
    ensures forall m | m in TenantMounts(tenants) + OutputMounts(outputs) :: !m.readOnly
  {
    TenantMountsAre(tenants);
    OutputMountsAre(outputs);
  }

  // Applying both again changes nothing.
  lemma ConfiguredTwice(f: Fields, tenants: seq<Tenant>, outputs: seq<OutputWithSecretData>,
                        additionalArgs: map<string, string>, serviceAccount: string)
    ensures var g := Configured(f, tenants, outputs, additionalArgs, serviceAccount);
            Configured(g, tenants, outputs, additionalArgs, serviceAccount) == g
  {
    hide Missing, SanitizePathForVolumeName, VolumeNames, MountNames, WithMounts;
    var h := VolumesHandled(f, tenants, outputs);
    var g := DefaultsSet(h, additionalArgs, serviceAccount);
    NamesAfterVolumes(f, tenants, outputs);
    NamesAfterDefaults(h, additionalArgs, serviceAccount);
    NothingMissing(VolumeNames(g.volumes), TenantMounts(tenants) + OutputMounts(outputs));
    NothingMissing(VolumeNames(g.volumes), LOG_MOUNTS);
    WithNoMounts(g, true);
    WithNoMounts(g, false);
    assert g.args + additionalArgs == g.args;
  }

  lemma NamesAfterVolumes(f: Fields, tenants: seq<Tenant>, outputs: seq<OutputWithSecretData>)
    ensures forall m | m in TenantMounts(tenants) + OutputMounts(outputs) ::
              m.name in VolumeNames(VolumesHandled(f, tenants, outputs).volumes)
  {
    hide Missing, VolumeNames, MountNames, TenantMounts, OutputMounts;
    var wanted := TenantMounts(tenants) + OutputMounts(outputs);
    MissingMembers(VolumeNames(f.volumes), wanted);
    WithMountsNames(f, Missing(VolumeNames(f.volumes), wanted), true);
  }

  lemma NamesAfterDefaults(h: Fields, additionalArgs: map<string, string>, serviceAccount: string)
    ensures var g := DefaultsSet(h, additionalArgs, serviceAccount);
            && VolumeNames(h.volumes) <= VolumeNames(g.volumes)
            && (forall m | m in LOG_MOUNTS :: m.name in VolumeNames(g.volumes))
            && g.image != "" && g.serviceAccount == serviceAccount && g.args == h.args + additionalArgs
  {
    hide Missing, VolumeNames, MountNames;
    var logs := Missing(VolumeNames(h.volumes), LOG_MOUNTS);
    MissingMembers(VolumeNames(h.volumes), LOG_MOUNTS);
    WithMountsNames(SettingsSet(h, additionalArgs, serviceAccount), logs, false);
  }

  // Every file exporter gets its directory mounted exactly if no volume name it needs was taken and no two
  // directories share a name; otherwise a directory is left out without an error.
  lemma DirectoriesMountedIff(f: Fields, tenants: seq<Tenant>, outputs: seq<OutputWithSecretData>)
    ensures (forall e | e in outputs && File in e.output.kinds ::
               AddsMount(f, VolumesHandled(f, tenants, outputs),
                         Mount("file-exporter-" + SanitizePathForVolumeName(e.output.directory), e.output.directory,
                               false)))
            <==>
            ((forall e | e in outputs && File in e.output.kinds ::
                "file-exporter-" + SanitizePathForVolumeName(e.output.directory) !in VolumeNames(f.volumes))
             && forall a, b | a in outputs && b in outputs && File in a.output.kinds && File in b.output.kinds
                  && SanitizePathForVolumeName(a.output.directory) == SanitizePathForVolumeName(b.output.directory) ::
                  a.output.directory == b.output.directory)
  {
    hide Missing, SanitizePathForVolumeName;
    var taken := VolumeNames(f.volumes);
    var buffers := Missing(taken, TenantMounts(tenants));
    MissingTogether(taken, TenantMounts(tenants), OutputMounts(outputs));
    MissingMembers(taken, TenantMounts(tenants));
    TenantMountsAre(tenants);
    OutputMountsAre(outputs);
    forall m, e | m in buffers && e in outputs
      ensures m != FileExporterMount(e.output.directory) && m.name != FileExporterMount(e.output.directory).name
    {
      assert m.name[0] == 'b' && FileExporterMount(e.output.directory).name[0] == 'f';
    }
    AllMadeIff(taken + MountNames(buffers), OutputMounts(outputs));
    SameVolumeName(outputs);
    forall m
      ensures AddsMount(f, VolumesHandled(f, tenants, outputs), m)
              <==> m in Missing(taken, TenantMounts(tenants) + OutputMounts(outputs))
    {
      MountsAdded(f, tenants, outputs, m);
    }
  }

  lemma MountsAdded(f: Fields, tenants: seq<Tenant>, outputs: seq<OutputWithSecretData>, m: Mount)
    ensures AddsMount(f, VolumesHandled(f, tenants, outputs), m)
            <==> m in Missing(VolumeNames(f.volumes), TenantMounts(tenants) + OutputMounts(outputs))
  {
    hide Missing, VolumeNames, TenantMounts, OutputMounts, SanitizePathForVolumeName;
    var added := Missing(VolumeNames(f.volumes), TenantMounts(tenants) + OutputMounts(outputs));
    assert VolumesHandled(f, tenants, outputs).mounts == f.mounts + added;
    assert (f.mounts + added)[|f.mounts|..] == added;
  }

  // A volume name has no slash and no capital letter, whatever the directory.
  lemma SanitizedIsPlain(path: string)
    ensures forall c | c in SanitizePathForVolumeName(path) :: c != '/' && !('A' <= c <= 'Z')
  {
  }

  lemma SameVolumeName(outputs: seq<OutputWithSecretData>)
    ensures forall a, b | a in outputs && b in outputs ::
              FileExporterMount(a.output.directory).name == FileExporterMount(b.output.directory).name <==>
              SanitizePathForVolumeName(a.output.directory) == SanitizePathForVolumeName(b.output.directory)
  {
    hide SanitizePathForVolumeName;
    forall a, b | a in outputs && b in outputs
                  && FileExporterMount(a.output.directory).name == FileExporterMount(b.output.directory).name
      ensures SanitizePathForVolumeName(a.output.directory) == SanitizePathForVolumeName(b.output.directory)
    {
      SamePrefix("file-exporter-", SanitizePathForVolumeName(a.output.directory),
                 SanitizePathForVolumeName(b.output.directory));
    }
  }

  // Two directories that share a volume name.
  lemma DirectoriesCanCollide()
    ensures SanitizePathForVolumeName("/logs/a") == SanitizePathForVolumeName("/logs-a") == "logs-a"
  {
    assert TrimLeft("/logs/a") == "logs/a" && TrimLeft("/logs-a") == "logs-a";
    assert TrimRight("logs/a") == "logs/a" && TrimRight("logs-a") == "logs-a";
  }

  predicate AddsMount(f: Fields, g: Fields, m: Mount) {
    f.mounts <= g.mounts && m in g.mounts[|f.mounts|..]
  }

  lemma BufferMade(taken: set<string>, tenants: seq<Tenant>, outputs: seq<OutputWithSecretData>, t: Tenant)
    requires UniqueTenants(tenants) && t in tenants && t.fileStorage
    ensures BufferMount(t) in Missing(taken, TenantMounts(tenants) + OutputMounts(outputs))
            <==> BufferMount(t).name !in taken
  {
    hide Missing, SanitizePathForVolumeName;
    MissingTogether(taken, TenantMounts(tenants), OutputMounts(outputs));
    MissingMembers(taken, TenantMounts(tenants) + OutputMounts(outputs));
    MissingMembers(taken, TenantMounts(tenants));
    TenantMountsAre(tenants);
    if BufferMount(t).name !in taken {
      var m :| m in Missing(taken, TenantMounts(tenants)) && m.name == BufferMount(t).name;
      var u :| u in tenants && u.fileStorage && m == BufferMount(u);
      SamePrefix("buffervolume-", t.name, u.name);
      var i :| 0 <= i < |tenants| && tenants[i] == t;
      var j :| 0 <= j < |tenants| && tenants[j] == u;
    }
  }

  // The directory of every tenant's file storage extension is mounted, unless a volume had the name of its buffer.
  lemma BuffersMounted(f: Fields, tenants: seq<Tenant>, outputs: seq<OutputWithSecretData>, t: Tenant)
    requires UniqueTenants(tenants) && t in tenants && t.fileStorage
    ensures var directory := if t.directory == "" then "/var/lib/otelcol/file_storage/" + t.name else t.directory;
            AddsMount(f, VolumesHandled(f, tenants, outputs), Mount("buffervolume-" + t.name, directory, false))
            <==> "buffervolume-" + t.name !in VolumeNames(f.volumes)
  {
    hide Missing, VolumeNames, TenantMounts, OutputMounts, VolumesHandled, AddsMount;
    BufferMade(VolumeNames(f.volumes), tenants, outputs, t);
    MountsAdded(f, tenants, outputs, BufferMount(t));
  }

  // Settings that the user made stay, and the collector reads the logs of the node unless the user mounted something
  // else under these names.
  lemma SettingsAre(f: Fields, tenants: seq<Tenant>, outputs: seq<OutputWithSecretData>,
                    additionalArgs: map<string, string>, serviceAccount: string)
    ensures var g := Configured(f, tenants, outputs, additionalArgs, serviceAccount);
            && (f.image != "" ==> g.image == f.image) && g.image != "" && g.serviceAccount == serviceAccount
            && (forall k :: k in g.args <==> k in f.args || k in additionalArgs)
            && (forall k | k in g.args :: g.args[k] == if k in additionalArgs then additionalArgs[k] else f.args[k])
    ensures var h, g := VolumesHandled(f, tenants, outputs),
                        Configured(f, tenants, outputs, additionalArgs, serviceAccount);
            && ("varlog" !in VolumeNames(h.volumes) ==> Mount("varlog", "/var/log", true) in g.mounts)
            && ("varlibdockercontainers" !in VolumeNames(h.volumes) ==>
                  Mount("varlibdockercontainers", "/var/lib/docker/containers", true) in g.mounts)
  {
    hide VolumeNames, MountNames, Missing, TenantMounts, OutputMounts, SanitizePathForVolumeName;
    var h := VolumesHandled(f, tenants, outputs);
    NamesAfterDefaults(h, additionalArgs, serviceAccount);
    LogMountsAdded(VolumeNames(h.volumes));
  }

  lemma LogMountsAdded(taken: set<string>)
    ensures var added := Missing(taken, LOG_MOUNTS);
            && ("varlog" !in taken ==> Mount("varlog", "/var/log", true) in added)
            && ("varlibdockercontainers" !in taken ==>
                  Mount("varlibdockercontainers", "/var/lib/docker/containers", true) in added)
  {
    hide MountNames, Missing;
    MissingMembers(taken, LOG_MOUNTS);
    var added := Missing(taken, LOG_MOUNTS);
    assert LOG_MOUNTS[0] in LOG_MOUNTS && LOG_MOUNTS[1] in LOG_MOUNTS;
    forall name | (name == "varlog" || name == "varlibdockercontainers") && name !in taken
      ensures exists m :: m in added && m in LOG_MOUNTS && m.name == name
    {
      assert name in MountNames(added);
      MountOfName(added, name);
    }
    assert "varlog" != "varlibdockercontainers" by { assert |"varlog"| == 6 && |"varlibdockercontainers"| == 22; }
  }

  lemma MountOfName(mounts: seq<Mount>, name: string)
    requires name in MountNames(mounts)
    ensures exists m :: m in mounts && m.name == name
  {
  }
}
