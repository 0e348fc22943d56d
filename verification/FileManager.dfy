/**
 The shared input directories of jobs.  A binding is rendered into a staging directory and
 renamed into place; the process may die at any file operation, and any operation may fail.
 */
module FileManager {
  import opened Wrappers
  import opened Mounts
  import opened Sources
  import Text

  const MAX_SAFE_NAME := 128

  predicate SafeChar(c: char) {
    Text.IsAlnum(c) || c == '_' || c == '.' || c == '-'
  }

  /** A name that is safe as a path component: it starts with a letter or a digit. */
  predicate SafeName(s: string) {
    0 < |s| <= MAX_SAFE_NAME && Text.IsAlnum(s[0]) && forall c :: c in s ==> SafeChar(c)
  }

  /** Safe names are names of single directory entries that neither hide nor climb; short alphanumeric texts are safe. */
  lemma SafeNamesStayInPlace(s: string)
    ensures SafeName(s) ==> '/' !in s && s[0] != '.' && s[0] != '-' && s != "." && s != ".." && |s| <= 128
    ensures 0 < |s| <= 128 && (forall c :: c in s ==> Text.IsAlnum(c)) ==> SafeName(s)
  {
    assert SafeName(s) ==> s[0] in s;
    assert s != "" ==> s[0] in s;
  }

  // --- The catalog -------------------------------------------------------------------------------

  datatype Environment = NotAnObject | Environment(name: Option<string>, image: Option<string>, num: Option<int>, params: bool)

  datatype Dataset = BadDataset | Dataset(records: nat, data: string)

  /** A start file as read; runnerOk covers the checks on its command and runner source. */
  datatype Start =
    | UnreadableStart
    | Start(agentName: Option<string>, hasEntrypoint: bool, mounts: Option<seq<Mount>>, runnerOk: bool, body: string)

  datatype Group = Group(envName: string, dataset: Dataset, start: Start, files: seq<(string, string)>)

  datatype Launcher = BadLauncher | Launcher(body: string)

  datatype Range = Range(
    rangeId: string,
    available: bool,
    environments: Option<seq<Environment>>,   // None: not readable, or not a list
    agentBody: string,
    groups: seq<Group>,
    launcher: Option<Launcher>)

  datatype CatalogAnswer = CatalogRaises | NoRange | Found(range: Range)

  // --- Directories -------------------------------------------------------------------------------

  datatype JobFileBinding = JobFileBinding(
    jobId: string, rangeId: string, inputSource: string, resultSource: string,
    envName: string, envImage: string, envNum: nat, records: nat, totalEpisodes: nat,
    agentSum: string, datasetSum: string, startSum: string, gatewaySum: string, launcherSum: Option<string>)

  datatype Content =
    | Torn
    | Blob(data: string)
    | StartFile(mounts: seq<Mount>, body: string)
    | AgentFile(dataset: string, resultsRoot: string, body: string)
    | ManifestFile(binding: JobFileBinding)

  type Dir = map<string, Content>

  const MANIFEST := ".binding.json"
  const CONFIG := "config.yaml"
  const LAUNCHER := "launcher.rjob.yaml"
  const GATEWAY := "gateway/gateway.yaml"
  const STAGING_PREFIX := ".input-"
  const IGNORED := {".git", ".pytest_cache", ".ruff_cache", "__pycache__", "datasets", "runtime", "results"}

  function GroupPath(env: string, file: string): string {
    "groups/" + env + "/" + file
  }

  /** Where results are kept: outside the shared root, in a child of it, or in the root itself. */
  datatype ResultsPlace = Elsewhere | Inside(name: string) | SharedRoot

  /** What happens to one file operation. */
  datatype Fate = Fine | IoError | Death

  datatype BindError = UnsafeJobId | RangeUnavailable | Mismatch | Partial | BadInput | PublishFailed

  /** How a bind call ends: besides binding errors, two foreign exceptions and the death of the process. */
  datatype Outcome = Bound(binding: JobFileBinding) | Failed(e: BindError) | Untrusted | OsError | Died

  datatype RenderOutcome = Rendered(binding: JobFileBinding) | RenderFailed(e: BindError) | RenderDied

  predicate EnvironmentOk(e: Environment) {
    e.Environment? && e.name.Some? && SafeName(e.name.value)
  }

  /** Every environment is an object with a safe name of its own. */
  ghost predicate WellNamed(es: seq<Environment>) {
    && (forall e :: e in es ==> EnvironmentOk(e))
    && (forall i, j :: 0 <= i < j < |es| ==>
          EnvironmentOk(es[i]) && EnvironmentOk(es[j]) && es[i].name != es[j].name)
  }

  method ByName(es: seq<Environment>) returns (r: Result<map<string, Environment>, BindError>)
    ensures r.Ok? <==> WellNamed(es)
    ensures r.Ok? ==> forall n :: n in r.value <==> exists e :: e in es && e.name == Some(n)
    ensures r.Ok? ==> forall n :: n in r.value ==> r.value[n] in es && r.value[n].name == Some(n)
    ensures r.Err? ==> r.error == BadInput
  {
    var named: map<string, Environment> := map[];
    for k := 0 to |es|
      invariant WellNamed(es[..k])
      invariant forall n :: n in named <==> exists e :: e in es[..k] && e.name == Some(n)
      invariant forall n :: n in named ==> named[n] in es[..k] && named[n].name == Some(n)
    {
      assert es[..k + 1] == es[..k] + [es[k]];
      if !EnvironmentOk(es[k]) {
        assert es[k] in es;
        return Err(BadInput);
      }
      var name := es[k].name.value;
      if name in named {
        var i :| 0 <= i < k && es[i] == named[name];
        return Err(BadInput);
      }
      named := named[name := es[k]];
    }
    assert es[..|es|] == es;
    return Ok(named);
  }

  /** What a rendered directory holds besides its manifest: the files whose checksums the binding lists. */
  ghost predicate Holds(sum: Content -> string, dir: Dir, b: JobFileBinding) {
    && CONFIG in dir && sum(dir[CONFIG]) == b.agentSum
    && GATEWAY in dir && sum(dir[GATEWAY]) == b.gatewaySum
    && GroupPath(b.envName, "dataset.jsonl") in dir && sum(dir[GroupPath(b.envName, "dataset.jsonl")]) == b.datasetSum
    && GroupPath(b.envName, "start.rjob.yaml") in dir && sum(dir[GroupPath(b.envName, "start.rjob.yaml")]) == b.startSum
    && (b.launcherSum.Some? ==> LAUNCHER in dir && sum(dir[LAUNCHER]) == b.launcherSum.value)
  }

  /** A directory with a manifest for its own job, and everything the manifest lists. */
  ghost predicate Complete(sum: Content -> string, name: string, dir: Dir) {
    MANIFEST in dir && dir[MANIFEST].ManifestFile? && dir[MANIFEST].binding.jobId == name
    && Holds(sum, dir, dir[MANIFEST].binding)
  }

  lemma PathsAreOwn(env: string, a: string, b: string)
    ensures a != b ==> GroupPath(env, a) != GroupPath(env, b)
    ensures GroupPath(env, a) !in {MANIFEST, CONFIG, LAUNCHER, GATEWAY}
  {
    var p, q := GroupPath(env, a), GroupPath(env, b);
    var k := |"groups/" + env + "/"|;
    assert p[k..] == a && q[k..] == b;
    assert p[0] == 'g' && p[1] == 'r' && GATEWAY[1] == 'a';
  }

  /** A file of an environment that jobs get as it is: neither a cache or output, nor one that is rendered. */
  predicate Plain(name: string) {
    && name !in {".git", ".pytest_cache", ".ruff_cache", "__pycache__", "datasets", "runtime", "results"}
    && name != "dataset.jsonl" && name != "start.rjob.yaml"
  }

  /** File k is plain and the last of its name among the first n. */
  predicate Lasting(files: seq<(string, string)>, k: nat, n: nat)
    requires k < n <= |files|
  {
    Plain(files[k].0) && forall j :: k < j < n ==> files[j].0 != files[k].0
  }

  /** The plain ones of the first n files are in the directory, each as its last copy reads. */
  ghost predicate Copied(dir: Dir, env: string, files: seq<(string, string)>, n: nat)
    requires n <= |files|
  {
    forall k: nat :: k < n && Lasting(files, k, n) ==>
      GroupPath(env, files[k].0) in dir && dir[GroupPath(env, files[k].0)] == Blob(files[k].1)
  }

  lemma CopiedStays(dir: Dir, env: string, files: seq<(string, string)>, n: nat, path: string, c: Content)
    requires n <= |files| && Copied(dir, env, files, n)
    requires forall k: nat :: k < n && Lasting(files, k, n) ==> GroupPath(env, files[k].0) != path
    ensures Copied(dir[path := c], env, files, n)
  {
  }

  lemma OneMoreCopied(dir: Dir, env: string, files: seq<(string, string)>, n: nat)
    requires n < |files| && Copied(dir, env, files, n)
    ensures Copied(dir[GroupPath(env, files[n].0) := Blob(files[n].1)], env, files, n + 1)
    ensures !Plain(files[n].0) ==> Copied(dir, env, files, n + 1)
  {
    forall k: nat | k < n && Lasting(files, k, n + 1)
      ensures Lasting(files, k, n) && GroupPath(env, files[k].0) != GroupPath(env, files[n].0)
    {
      PathsAreOwn(env, files[k].0, files[n].0);
    }
  }

  lemma StagingIsUnsafe(suffix: string)
    ensures !SafeName(STAGING_PREFIX + suffix)
  {
    assert (STAGING_PREFIX + suffix)[0] == '.';
  }

  /** How a binding relates to the template it was rendered from. */
  ghost predicate RenderedFrom(range: Range, jobId: string, b: JobFileBinding) {
    && b.jobId == jobId && b.rangeId == range.rangeId
    && |range.groups| == 1 && range.groups[0].envName == b.envName
    && range.groups[0].dataset.Dataset? && b.records == range.groups[0].dataset.records
    && range.environments.Some?
    && (exists e :: e in range.environments.value && e.Environment? && e.name == Some(b.envName)
                    && e.num == Some(b.envNum) && e.image == Some(b.envImage) && e.params)
    && Text.Strip(b.envImage) != ""
    && (var start := range.groups[0].start;
        start.Start? && start.agentName == Some(b.envName) && start.hasEntrypoint && start.runnerOk)
    && b.envNum >= 1
    && b.totalEpisodes == b.records * b.envNum
  }

  /** The binding counts the episodes of the only group with this many environments. */
  ghost predicate OfGroup(range: Range, jobId: string, image: string, num: nat, b: JobFileBinding) {
    && b.jobId == jobId && b.rangeId == range.rangeId && |range.groups| == 1 && b.envName == range.groups[0].envName
    && b.envImage == image && b.envNum == num
    && range.groups[0].dataset.Dataset? && b.records == range.groups[0].dataset.records
    && b.totalEpisodes == b.records * num
  }

  /** The environment of this range that its only group names. */
  ghost predicate IsNamed(range: Range, e: Environment) {
    && range.environments.Some? && e in range.environments.value && e.Environment?
    && |range.groups| == 1 && e.name == Some(range.groups[0].envName)
  }

  /** The staged start file mounts the job's own result directory. */
  ghost predicate ResultsRedirected(range: Range, target: string, dir: Dir, b: JobFileBinding) {
    && |range.groups| == 1 && range.groups[0].start.Start? && range.groups[0].start.mounts.Some?
    && var path := GroupPath(b.envName, "start.rjob.yaml");
       path in dir && dir[path] == StartFile(Rewritten(range.groups[0].start.mounts.value, b.resultSource, target),
                                             range.groups[0].start.body)
  }

  /** In the staged start file nothing but the job's own result directory is mounted at the result target. */
  lemma OnlyOwnResultsAreMounted(range: Range, target: string, dir: Dir, b: JobFileBinding, m: Mount)
    requires ResultsRedirected(range, target, dir, b)
    requires m in dir[GroupPath(b.envName, "start.rjob.yaml")].mounts && MountTarget(m) == Some(target)
    ensures m == TextMount(b.resultSource + ":" + target)
  {
    OneResultMount(range.groups[0].start.mounts.value, b.resultSource, target);
  }

  predicate MountsTarget(mounts: seq<Mount>, target: string) {
    exists m :: m in mounts && MountTarget(m) == Some(target)
  }

  predicate StartOk(start: Start, envName: string, target: string) {
    && start.Start? && start.agentName == Some(envName) && start.hasEntrypoint
    && start.mounts.Some? && start.mounts.value != [] && MountsTarget(start.mounts.value, target)
    && start.runnerOk
  }

  /** The names of the environments are those of the groups, and there is one group. */
  ghost predicate RangeOk(range: Range) {
    && range.environments.Some? && range.environments.value != [] && WellNamed(range.environments.value)
    && (set e | e in range.environments.value && e.Environment? && e.name.Some? :: e.name.value)
       == (set g | g in range.groups :: g.envName)
    && |range.groups| == 1
  }

  predicate LauncherOk(range: Range) {
    range.launcher.Some? ==> range.launcher.value.Launcher?
  }

  predicate GroupOk(e: Environment, g: Group, target: string) {
    && e.Environment? && e.image.Some? && Text.Strip(e.image.value) != "" && e.num.Some? && e.num.value >= 1 && e.params
    && g.dataset.Dataset? && StartOk(g.start, g.envName, target)
  }

  /** The environment of the only group, and the group itself, pass their checks. */
  ghost predicate GroupsOk(range: Range, target: string) {
    && |range.groups| == 1 && range.environments.Some?
    && exists e :: e in range.environments.value && e.Environment? && e.name == Some(range.groups[0].envName)
                   && GroupOk(e, range.groups[0], target)
  }

  lemma OneEnvironmentCounts(range: Range, e: Environment, target: string)
    requires RangeOk(range) && IsNamed(range, e)
    ensures GroupsOk(range, target) <==> GroupOk(e, range.groups[0], target)
  {
    var es := range.environments.value;
    forall d | d in es && d.Environment? && d.name == e.name ensures d == e {
      var i :| 0 <= i < |es| && es[i] == d;
      var j :| 0 <= j < |es| && es[j] == e;
      if i != j {
        assert EnvironmentOk(es[i]) && EnvironmentOk(es[j]);
      }
    }
  }

  /** A directory without a manifest: it was made to hold results. */
  predicate Bare(dirs: map<string, Dir>, n: string) {
    n in dirs && MANIFEST !in dirs[n]
  }

  /** A directory of this name may come to be for the sake of results alone. */
  predicate ForResults(place: ResultsPlace, n: string) {
    place == Inside(n) || place == SharedRoot
  }

  /** Every job directory is completely published, or was made for results and holds no manifest. */
  ghost predicate AllPublished(sum: Content -> string, place: ResultsPlace, dirs: map<string, Dir>) {
    && (forall n :: n in dirs && SafeName(n) ==> Complete(sum, n, dirs[n]) || (Bare(dirs, n) && ForResults(place, n)))
    && (place.Inside? && place.name in dirs ==> Bare(dirs, place.name))
  }

  /** The published bindings, by job. */
  function Manifests(dirs: map<string, Dir>): map<string, JobFileBinding> {
    map n | n in dirs && SafeName(n) && MANIFEST in dirs[n] && dirs[n][MANIFEST].ManifestFile? ::
      dirs[n][MANIFEST].binding
  }

  /** What one bind call may do to the published bindings, and what it answers. */
  ghost predicate BindStep(before: map<string, JobFileBinding>, jobId: string, rangeId: string, catalog: CatalogAnswer,
                           o: Outcome, after: map<string, JobFileBinding>) {
    if !SafeName(jobId) then o == Failed(UnsafeJobId) && after == before
    else if catalog.CatalogRaises? then o == Untrusted && after == before
    else if catalog.NoRange? || !catalog.range.available then o == Failed(RangeUnavailable) && after == before
    else if jobId in before then
      && after == before
      && (|| o == (if before[jobId].rangeId == rangeId then Bound(before[jobId]) else Failed(Mismatch))
          || o == OsError || o == Died)
    else
      || (after == before && !o.Bound?)
      || (exists b :: after == before[jobId := b] && RenderedFrom(catalog.range, jobId, b) && (o == Bound(b) || o == Died))
  }

  /** Directories with unsafe names are neither job directories nor manifests. */
  lemma UnsafeNamesDoNotMatter(sum: Content -> string, place: ResultsPlace, m: map<string, Dir>, n: string, d: Dir)
    requires AllPublished(sum, place, m) && !SafeName(n) && place != Inside(n)
    ensures Manifests(m[n := d]) == Manifests(m) && AllPublished(sum, place, m[n := d])
    ensures Manifests(m - {n}) == Manifests(m) && AllPublished(sum, place, m - {n})
  {
  }

  lemma EmptyDirsDoNotMatter(sum: Content -> string, place: ResultsPlace, m: map<string, Dir>, n: string)
    requires AllPublished(sum, place, m) && ForResults(place, n) && n !in m
    ensures Manifests(m[n := map[]]) == Manifests(m) && AllPublished(sum, place, m[n := map[]])
  {
  }

  lemma CompleteDirsPublish(sum: Content -> string, place: ResultsPlace, m: map<string, Dir>, jobId: string, d: Dir)
    requires AllPublished(sum, place, m) && SafeName(jobId) && place != Inside(jobId) && Complete(sum, jobId, d)
    ensures Manifests(m[jobId := d]) == Manifests(m)[jobId := d[MANIFEST].binding]
    ensures AllPublished(sum, place, m[jobId := d])
  {
  }

  /** A published binding is that of the job whose directory holds it. */
  lemma ManifestsAreOwn(sum: Content -> string, place: ResultsPlace, m: map<string, Dir>, jobId: string)
    requires AllPublished(sum, place, m)
    ensures jobId in Manifests(m) ==> Manifests(m)[jobId].jobId == jobId
  {
  }

  /** Writing a rendered file or the manifest does not touch the plain ones. */
  lemma RenderedFilesAreOwn(dir: Dir, g: Group, path: string, c: Content)
    requires Copied(dir, g.envName, g.files, |g.files|)
    requires path in {GroupPath(g.envName, "dataset.jsonl"), GroupPath(g.envName, "start.rjob.yaml"), CONFIG, GATEWAY,
                      MANIFEST}
    ensures Copied(dir[path := c], g.envName, g.files, |g.files|)
  {
    forall k: nat | k < |g.files| && Lasting(g.files, k, |g.files|) ensures GroupPath(g.envName, g.files[k].0) != path {
      PathsAreOwn(g.envName, g.files[k].0, "dataset.jsonl");
      PathsAreOwn(g.envName, g.files[k].0, "start.rjob.yaml");
    }
    CopiedStays(dir, g.envName, g.files, |g.files|, path, c);
  }

  lemma ManifestCompletes(sum: Content -> string, range: Range, target: string, dir: Dir, b: JobFileBinding)
    requires Holds(sum, dir, b) && ResultsRedirected(range, target, dir, b)
    ensures var done := dir[MANIFEST := ManifestFile(b)];
            && Complete(sum, b.jobId, done) && ResultsRedirected(range, target, done, b)
            && (forall p :: p in dir && p != MANIFEST ==> p in done && done[p] == dir[p])
            && GroupPath(b.envName, "dataset.jsonl") != MANIFEST
  {
    PathsAreOwn(b.envName, "dataset.jsonl", "start.rjob.yaml");
    PathsAreOwn(b.envName, "start.rjob.yaml", "dataset.jsonl");
  }

  class SharedFiles {
    const inputTarget: string
    const resultTarget: string
    const rjobRoot: string
    const resultsRjobRoot: string
    const gateway: string
    const place: ResultsPlace
    const sum: Content -> string

    var dirs: map<string, Dir>
    var results: set<string>
    var script: seq<Fate>               // the fate of the coming file operations

    ghost predicate Published()
      reads this
    {
      (AllPublished(sum, place, dirs) && AllSourced(Manifests(dirs), results)) == true
    }

    /** Inputs and results of the job lie under their roots, in directories of the job's own name. */
    ghost predicate Sourced(b: JobFileBinding) {
      (Under(rjobRoot, b.jobId, b.inputSource) && Under(resultsRjobRoot, b.jobId, b.resultSource)) == true
    }

    /** Every published binding lies at the place of its job, and the result directory of that job has been made. */
    ghost predicate AllSourced(bindings: map<string, JobFileBinding>, made: set<string>) {
      (forall n :: n in bindings ==> bindings[n].jobId == n && Sourced(bindings[n]) && n in made) == true
    }

    lemma SourcedStays(bindings: map<string, JobFileBinding>, made: set<string>, more: set<string>)
      requires AllSourced(bindings, made) && made <= more
      ensures AllSourced(bindings, more)
    {
    }

    /** Jobs share neither inputs nor results. */
    lemma JobsDoNotShare(a: string, b: string)
      requires Published() && a in Manifests(dirs) && b in Manifests(dirs) && a != b
      ensures Manifests(dirs)[a].inputSource != Manifests(dirs)[b].inputSource
      ensures Manifests(dirs)[a].resultSource != Manifests(dirs)[b].resultSource
    {
      var p, q := Manifests(dirs)[a], Manifests(dirs)[b];
      assert Sourced(p) && Sourced(q);
      if p.inputSource == q.inputSource {
        NamesDoNotShare(rjobRoot, a, b, p.inputSource);
      }
      if p.resultSource == q.resultSource {
        NamesDoNotShare(resultsRjobRoot, a, b, p.resultSource);
      }
    }

    lemma OneMoreSourced(bindings: map<string, JobFileBinding>, made: set<string>, b: JobFileBinding)
      requires AllSourced(bindings, made) && Sourced(b) && b.jobId in made
      ensures AllSourced(bindings[b.jobId := b], made)
    {
    }

    /** The agent is told where its dataset lies in the mounted inputs and where results go; the gateway is set up. */
    ghost predicate Equipped(range: Range, dir: Dir, b: JobFileBinding) {
      (&& |range.groups| == 1 && range.groups[0].dataset.Dataset?
       && var path := GroupPath(b.envName, "dataset.jsonl");
          && CONFIG in dir && dir[CONFIG] == AgentFile(inputTarget + "/" + path, resultTarget, range.agentBody)
          && path in dir && dir[path] == Blob(range.groups[0].dataset.data)
          && Copied(dir, b.envName, range.groups[0].files, |range.groups[0].files|)
          && GATEWAY in dir && dir[GATEWAY] == Blob(gateway)) == true
    }

    /** The directory of the root that a job's result directory lies in, or is. */
    function HomeOf(jobId: string): Option<string> {
      match place
      case Elsewhere => None
      case Inside(name) => Some(name)
      case SharedRoot => Some(jobId)
    }

    /** The root once the result directory of the job exists. */
    function WithResults(m: map<string, Dir>, jobId: string): map<string, Dir> {
      match HomeOf(jobId)
      case Some(n) => if n in m then m else m[n := map[]]
      case None => m
    }

    /** Nothing but this directory has been touched, and the job's result directory has been made or not. */
    ghost predicate OnlyTouched(before: map<string, Dir>, dir: string, jobId: string, made: bool)
      reads this
    {
      dir in dirs && dirs == (if made then WithResults(before, jobId) else before)[dir := dirs[dir]]
    }

    /** The process is not killed in any of the coming file operations; nor does any fail. */
    ghost predicate Working()
      reads this
    {
      script == []
    }

    constructor (inputTarget: string, resultTarget: string, rjobRoot: string, resultsRjobRoot: string, gateway: string,
                 place: ResultsPlace, sum: Content -> string, script: seq<Fate>)
      ensures Published() && dirs == map[] && this.place == place && this.sum == sum
    {
      this.inputTarget := inputTarget;
      this.resultTarget := resultTarget;
      this.rjobRoot := rjobRoot;
      this.resultsRjobRoot := resultsRjobRoot;
      this.gateway := gateway;
      this.place := place;
      this.sum := sum;
      dirs := map[];
      results := {};
      this.script := script;
    }

    method NextFate() returns (f: Fate)
      modifies this`script
      ensures old(Working()) ==> f.Fine? && Working()
      ensures Death !in old(script) ==> !f.Death? && Death !in script
    {
      if script == [] {
        return Fine;
      }
      f := script[0];
      script := script[1..];
    }

    /** The shared root and the results root are made, and a probe is written to each and removed again. */
    method Preflight() returns (f: Fate)
      requires Published()
      modifies this`dirs, this`script
      ensures Published() && Manifests(dirs) == Manifests(old(dirs))
      ensures dirs == old(dirs) || (place.Inside? && dirs == WithResults(old(dirs), place.name))
      ensures f.Fine? && place.Inside? ==> place.name in dirs
      ensures old(Working()) ==> Working() && f.Fine?
      ensures Death !in old(script) ==> Death !in script && !f.Death?
    {
      f := NextFate();
      if f.Fine? {
        f := NextFate();
      }
      if f.Fine? && place.Inside? && place.name !in dirs {
        EmptyDirsDoNotMatter(sum, place, dirs, place.name);
        dirs := dirs[place.name := map[]];
      }
      if f.Fine? {
        f := NextFate();
      }
    }

    /** A failed or interrupted write may leave a torn file behind. */
    method Write(dir: string, path: string, c: Content) returns (f: Fate)
      requires dir in dirs
      modifies this`dirs, this`script
      ensures f.Fine? ==> dirs == old(dirs)[dir := old(dirs)[dir][path := c]]
      ensures !f.Fine? ==> dirs == old(dirs)[dir := old(dirs)[dir][path := Torn]]
      ensures old(Working()) ==> Working() && f.Fine?
      ensures Death !in old(script) ==> Death !in script && !f.Death?
    {
      f := NextFate();
      dirs := dirs[dir := dirs[dir][path := if f.Fine? then c else Torn]];
    }

    method CopyEnvironmentFiles(staging: string, env: string, files: seq<(string, string)>) returns (f: Fate)
      requires staging in dirs
      modifies this`dirs, this`script
      ensures staging in dirs && dirs == old(dirs)[staging := dirs[staging]]
      ensures LAUNCHER in old(dirs)[staging] ==>
                LAUNCHER in dirs[staging] && dirs[staging][LAUNCHER] == old(dirs)[staging][LAUNCHER]
      ensures f.Fine? ==> Copied(dirs[staging], env, files, |files|)
      ensures old(Working()) ==> Working() && f.Fine?
      ensures Death !in old(script) ==> Death !in script && !f.Death?
    {
      for n := 0 to |files|
        invariant staging in dirs && dirs == old(dirs)[staging := dirs[staging]]
        invariant Copied(dirs[staging], env, files, n)
        invariant LAUNCHER in old(dirs)[staging] ==>
                    LAUNCHER in dirs[staging] && dirs[staging][LAUNCHER] == old(dirs)[staging][LAUNCHER]
        invariant old(Working()) ==> Working()
        invariant Death !in old(script) ==> Death !in script
      {
        OneMoreCopied(dirs[staging], env, files, n);
        if files[n].0 !in IGNORED {
          assert GroupPath(env, files[n].0)[0] == 'g';
          f := Write(staging, GroupPath(env, files[n].0), Blob(files[n].1));
          if !f.Fine? {
            return f;
          }
        }
      }
      return Fine;
    }

    /** The checks on the single group and its environment, in the order of the source. */
    method CheckGroup(e: Environment, g: Group) returns (r: Result<(string, nat), BindError>)
      requires e.Environment?
      ensures r.Ok? <==> GroupOk(e, g, resultTarget)
      ensures r.Ok? ==> e.image == Some(r.value.0) && e.num == Some(r.value.1) && r.value.1 >= 1
      ensures r.Err? ==> r.error == BadInput
    {
      if e.image.None? || Text.Strip(e.image.value) == "" {
        return Err(BadInput);
      }
      if e.num.None? || e.num.value < 1 {
        return Err(BadInput);
      }
      if !e.params {
        return Err(BadInput);
      }
      if g.dataset.BadDataset? {
        return Err(BadInput);
      }
      if !StartOk(g.start, g.envName, resultTarget) {
        return Err(BadInput);
      }
      return Ok((e.image.value, e.num.value));
    }

    method MakeResults(jobId: string) returns (f: Fate)
      modifies this`dirs, this`results, this`script
      ensures dirs == if f.Fine? then WithResults(old(dirs), jobId) else old(dirs)
      ensures results == if f.Fine? then old(results) + {jobId} else old(results)
      ensures old(Working()) ==> Working() && f.Fine?
      ensures Death !in old(script) ==> Death !in script && !f.Death?
    {
      f := NextFate();
      if f.Fine? {
        results := results + {jobId};
        var home := HomeOf(jobId);
        if home.Some? && home.value !in dirs {
          dirs := dirs[home.value := map[]];
        }
      }
    }

    /** The launcher file, when the range has one. */
    method WriteLauncher(staging: string,
                         launcher: Option<Launcher>) returns (o: Result<Option<string>, Fate>, bad: bool)
      requires staging in dirs && dirs[staging] == map[]
      modifies this`dirs, this`script
      ensures staging in dirs && dirs == old(dirs)[staging := dirs[staging]]
      ensures !bad && o.Ok? ==> (o.value.Some? <==> launcher.Some?)
      ensures !bad && o.Ok? && o.value.Some? ==> LAUNCHER in dirs[staging] && sum(dirs[staging][LAUNCHER]) == o.value.value
      ensures o.Err? ==> !o.error.Fine?
      ensures bad <==> launcher.Some? && launcher.value.BadLauncher?
      ensures old(Working()) ==> Working() && o.Ok?
      ensures Death !in old(script) ==> Death !in script && (o.Err? ==> !o.error.Death?)
    {
      bad := false;
      if launcher.None? {
        return Ok(None), false;
      }
      if launcher.value.BadLauncher? {
        return Ok(None), true;
      }
      var content := Blob(launcher.value.body);
      var f := Write(staging, LAUNCHER, content);
      if !f.Fine? {
        return Err(f), false;
      }
      return Ok(Some(sum(content))), false;
    }

    /** The dataset of the group, and its start file with the results redirected, are in the directory. */
    ghost predicate GroupWritten(dir: Dir, g: Group, resultSource: string)
      requires g.dataset.Dataset? && g.start.Start? && g.start.mounts.Some?
    {
      && Copied(dir, g.envName, g.files, |g.files|)
      && GroupPath(g.envName, "dataset.jsonl") in dir
      && dir[GroupPath(g.envName, "dataset.jsonl")] == Blob(g.dataset.data)
      && GroupPath(g.envName, "start.rjob.yaml") in dir
      && dir[GroupPath(g.envName, "start.rjob.yaml")]
         == StartFile(Rewritten(g.start.mounts.value, resultSource, resultTarget), g.start.body)
    }

    /** The files of the environment and the dataset of the group. */
    method WriteDataset(staging: string, g: Group) returns (f: Fate)
      requires staging in dirs && g.dataset.Dataset?
      modifies this`dirs, this`script
      ensures staging in dirs && dirs == old(dirs)[staging := dirs[staging]]
      ensures LAUNCHER in old(dirs)[staging] ==>
                LAUNCHER in dirs[staging] && dirs[staging][LAUNCHER] == old(dirs)[staging][LAUNCHER]
      ensures f.Fine? ==> GroupPath(g.envName, "dataset.jsonl") in dirs[staging]
                          && dirs[staging][GroupPath(g.envName, "dataset.jsonl")] == Blob(g.dataset.data)
                          && Copied(dirs[staging], g.envName, g.files, |g.files|)
      ensures old(Working()) ==> Working() && f.Fine?
      ensures Death !in old(script) ==> Death !in script && !f.Death?
    {
      PathsAreOwn(g.envName, "dataset.jsonl", "start.rjob.yaml");
      f := CopyEnvironmentFiles(staging, g.envName, g.files);
      if f.Fine? {
        RenderedFilesAreOwn(dirs[staging], g, GroupPath(g.envName, "dataset.jsonl"), Blob(g.dataset.data));
        f := Write(staging, GroupPath(g.envName, "dataset.jsonl"), Blob(g.dataset.data));
      }
    }

    /** The files of the group, its dataset and its start file with the results redirected. */
    method WriteGroup(staging: string, g: Group, resultSource: string) returns (f: Fate)
      requires staging in dirs && g.dataset.Dataset? && StartOk(g.start, g.envName, resultTarget)
      modifies this`dirs, this`script
      ensures staging in dirs && dirs == old(dirs)[staging := dirs[staging]]
      ensures LAUNCHER in old(dirs)[staging] ==>
                LAUNCHER in dirs[staging] && dirs[staging][LAUNCHER] == old(dirs)[staging][LAUNCHER]
      ensures f.Fine? ==> GroupWritten(dirs[staging], g, resultSource)
      ensures old(Working()) ==> Working() && f.Fine?
      ensures Death !in old(script) ==> Death !in script && !f.Death?
    {
      PathsAreOwn(g.envName, "dataset.jsonl", "start.rjob.yaml");
      PathsAreOwn(g.envName, "start.rjob.yaml", "dataset.jsonl");
      f := WriteDataset(staging, g);
      if f.Fine? {
        var mounts := Rewrite(g.start.mounts.value, resultSource, resultTarget);
        RenderedFilesAreOwn(dirs[staging], g, GroupPath(g.envName, "start.rjob.yaml"), StartFile(mounts, g.start.body));
        f := Write(staging, GroupPath(g.envName, "start.rjob.yaml"), StartFile(mounts, g.start.body));
      }
    }

    method WriteConfigs(staging: string, env: string, agent: Content) returns (f: Fate)
      requires staging in dirs
      modifies this`dirs, this`script
      ensures staging in dirs && dirs == old(dirs)[staging := dirs[staging]]
      ensures f.Fine? ==> dirs[staging] == old(dirs)[staging][CONFIG := agent][GATEWAY := Blob(gateway)]
      ensures old(Working()) ==> Working() && f.Fine?
      ensures Death !in old(script) ==> Death !in script && !f.Death?
    {
      f := Write(staging, CONFIG, agent);
      if !f.Fine? {
        return;
      }
      f := Write(staging, GATEWAY, Blob(gateway));
    }

    function Failure(f: Fate): RenderOutcome {
      if f.Death? then RenderDied else RenderFailed(PublishFailed)
    }

    /** The checks that come before any file is written. */
    method CheckRange(range: Range) returns (r: Result<Environment, BindError>)
      ensures r.Ok? <==> RangeOk(range)
      ensures r.Ok? ==> IsNamed(range, r.value)
      ensures r.Err? ==> r.error == BadInput
    {
      if range.environments.None? || range.environments.value == [] {
        return Err(BadInput);
      }
      var named := ByName(range.environments.value);
      if named.Err? {
        return Err(BadInput);
      }
      var declared := set g | g in range.groups :: g.envName;
      assert named.value.Keys ==
             (set e | e in range.environments.value && e.Environment? && e.name.Some? :: e.name.value);
      if named.value.Keys != declared {
        return Err(BadInput);
      }
      if |range.groups| != 1 {
        return Err(BadInput);
      }
      assert range.groups[0].envName in declared;
      return Ok(named.value[range.groups[0].envName]);
    }

    /** The files of the group and the two configurations. */
    method WriteFiles(staging: string, g: Group, resultSource: string, agent: Content) returns (f: Fate)
      requires staging in dirs && g.dataset.Dataset? && StartOk(g.start, g.envName, resultTarget)
      modifies this`dirs, this`script
      ensures staging in dirs && dirs == old(dirs)[staging := dirs[staging]]
      ensures f.Fine? && LAUNCHER in old(dirs)[staging] ==>
                LAUNCHER in dirs[staging] && dirs[staging][LAUNCHER] == old(dirs)[staging][LAUNCHER]
      ensures f.Fine? ==> GroupWritten(dirs[staging], g, resultSource)
      ensures f.Fine? ==> && CONFIG in dirs[staging] && dirs[staging][CONFIG] == agent
                          && GATEWAY in dirs[staging] && dirs[staging][GATEWAY] == Blob(gateway)
      ensures old(Working()) ==> Working() && f.Fine?
      ensures Death !in old(script) ==> Death !in script && !f.Death?
    {
      PathsAreOwn(g.envName, "dataset.jsonl", "start.rjob.yaml");
      PathsAreOwn(g.envName, "start.rjob.yaml", "dataset.jsonl");
      f := WriteGroup(staging, g, resultSource);
      if f.Fine? {
        RenderedFilesAreOwn(dirs[staging], g, CONFIG, agent);
        RenderedFilesAreOwn(dirs[staging][CONFIG := agent], g, GATEWAY, Blob(gateway));
        f := WriteConfigs(staging, g.envName, agent);
      }
    }

    /** The binding of a job whose only group has been written. */
    function BindingOf(jobId: string, range: Range, image: string, num: nat, agent: Content, start: Content,
                       launcherSum: Option<string>): JobFileBinding
      requires |range.groups| == 1 && range.groups[0].dataset.Dataset?
    {
      var group := range.groups[0];
      JobFileBinding(
        jobId, range.rangeId, JoinSource(rjobRoot, jobId), JoinSource(resultsRjobRoot, jobId), group.envName, image, num,
        group.dataset.records, group.dataset.records * num, sum(agent), sum(Blob(group.dataset.data)), sum(start),
        sum(Blob(gateway)), launcherSum)
    }

    /** The part of the rendering that follows the checks on the group. */
    method RenderFiles(staging: string, jobId: string, range: Range, image: string, num: nat,
                       launcherSum: Option<string>) returns (o: RenderOutcome)
      requires staging in dirs && |range.groups| == 1
      requires launcherSum.Some? ==> LAUNCHER in dirs[staging] && sum(dirs[staging][LAUNCHER]) == launcherSum.value
      requires range.groups[0].dataset.Dataset? && StartOk(range.groups[0].start, range.groups[0].envName, resultTarget)
      modifies this`dirs, this`script
      ensures staging in dirs && dirs == old(dirs)[staging := dirs[staging]]
      ensures o.Rendered? ==> OfGroup(range, jobId, image, num, o.binding)
      ensures o.Rendered? && SafeName(jobId) ==> Sourced(o.binding)
      ensures o.Rendered? ==> Equipped(range, dirs[staging], o.binding)
      ensures o.Rendered? ==> Holds(sum, dirs[staging], o.binding)
                              && ResultsRedirected(range, resultTarget, dirs[staging], o.binding)
      ensures o.RenderFailed? ==> o.e == PublishFailed
      ensures old(Working()) ==> Working() && o.Rendered?
      ensures Death !in old(script) ==> Death !in script && !o.RenderDied?
    {
      var group := range.groups[0];
      var resultSource := JoinSource(resultsRjobRoot, jobId);
      var agent := AgentFile(inputTarget + "/" + GroupPath(group.envName, "dataset.jsonl"), resultTarget, range.agentBody);
      var f := WriteFiles(staging, group, resultSource, agent);
      if !f.Fine? {
        return Failure(f);
      }
      var start := dirs[staging][GroupPath(group.envName, "start.rjob.yaml")];
      var binding := BindingOf(jobId, range, image, num, agent, start, launcherSum);
      if SafeName(jobId) {
        JoinedIsUnder(rjobRoot, jobId);
        JoinedIsUnder(resultsRjobRoot, jobId);
      }
      return Rendered(binding);
    }

    /** What a rendering gives: the binding, with all it lists in the staging directory, or an error. */
    ghost predicate Rendering(dir: Dir, range: Range, jobId: string, o: RenderOutcome, made: bool) {
      (&& (o.Rendered? ==> made && RenderedFrom(range, jobId, o.binding) && Holds(sum, dir, o.binding)
                           && ResultsRedirected(range, resultTarget, dir, o.binding)
                           && (SafeName(jobId) ==> Sourced(o.binding)) && Equipped(range, dir, o.binding))
       && (o.RenderFailed? ==> o.e == BadInput || o.e == PublishFailed)
       && (made ==> RangeOk(range) && LauncherOk(range))) == true
    }

    /** Where no operation fails, the checks alone decide. */
    ghost predicate Decided(range: Range, o: RenderOutcome, made: bool) {
      (&& (made <==> RangeOk(range) && LauncherOk(range))
       && (o.Rendered? <==> made && GroupsOk(range, resultTarget))
       && !o.RenderDied? && (o.RenderFailed? ==> o.e == BadInput)) == true
    }

    /** What comes before the group: the checks on the range, the launcher file and the result directory. */
    method Prepare(staging: string, jobId: string, range: Range)
      returns (stop: Option<RenderOutcome>, e: Environment, launcher: Option<string>)
      requires staging in dirs && dirs[staging] == map[] && HomeOf(jobId) != Some(staging)
      modifies this`dirs, this`results, this`script
      ensures OnlyTouched(old(dirs), staging, jobId, stop.None?)
      ensures results == if stop.None? then old(results) + {jobId} else old(results)
      ensures stop.Some? ==>
                stop.value == RenderFailed(BadInput) || stop.value == RenderFailed(PublishFailed) || stop.value.RenderDied?
      ensures stop.None? ==> RangeOk(range) && LauncherOk(range) && IsNamed(range, e)
      ensures launcher.Some? ==> LAUNCHER in dirs[staging] && sum(dirs[staging][LAUNCHER]) == launcher.value
      ensures old(Working()) ==> && Working() && (stop.None? <==> RangeOk(range) && LauncherOk(range))
                                 && (stop.Some? ==> stop.value == RenderFailed(BadInput))
      ensures Death !in old(script) ==> Death !in script && stop != Some(RenderDied)
    {
      e, launcher := NotAnObject, None;
      var checked := CheckRange(range);
      if checked.Err? {
        return Some(RenderFailed(BadInput)), e, launcher;
      }
      e := checked.value;
      var written, bad := WriteLauncher(staging, range.launcher);
      if bad {
        return Some(RenderFailed(BadInput)), e, launcher;
      }
      if written.Err? {
        return Some(Failure(written.error)), e, launcher;
      }
      var f := MakeResults(jobId);
      if !f.Fine? {
        return Some(Failure(f)), e, launcher;
      }
      return None, e, written.value;
    }

    /** Made: the job's result directory has been made, which comes after the checks on the range and the launcher. */
    method Render(staging: string, jobId: string, range: Range) returns (o: RenderOutcome, ghost made: bool)
      requires staging in dirs && dirs[staging] == map[] && HomeOf(jobId) != Some(staging)
      modifies this`dirs, this`results, this`script
      ensures OnlyTouched(old(dirs), staging, jobId, made)
      ensures results == if made then old(results) + {jobId} else old(results)
      ensures Rendering(dirs[staging], range, jobId, o, made)
      ensures old(Working()) ==> Working() && Decided(range, o, made)
      ensures Death !in old(script) ==> Death !in script && !o.RenderDied?
    {
      var stop, e, launcher := Prepare(staging, jobId, range);
      made := stop.None?;
      if stop.Some? {
        return stop.value, made;
      }
      var grouped := CheckGroup(e, range.groups[0]);
      OneEnvironmentCounts(range, e, resultTarget);
      if grouped.Err? {
        return RenderFailed(BadInput), made;
      }
      o := RenderFiles(staging, jobId, range, grouped.value.0, grouped.value.1, launcher);
    }

    /** The staging directory is removed after a failure, unless the process dies first. */
    method Discard(staging: string, e: BindError) returns (o: Outcome)
      modifies this`dirs, this`script
      ensures o == Failed(e) || o == Died
      ensures dirs == if o.Died? then old(dirs) else old(dirs) - {staging}
      ensures old(Working()) ==> Working() && !o.Died?
      ensures Death !in old(script) ==> Death !in script && !o.Died?
    {
      var f := NextFate();
      if f.Death? {
        return Died;
      }
      dirs := dirs - {staging};
      return Failed(e);
    }

    /** The target of the rename is there already, and is not an empty directory. */
    predicate Taken(jobId: string)
      reads this
    {
      (jobId in dirs && dirs[jobId] != map[]) || place == Inside(jobId)
    }

    /**
     The atomic rename replaces an empty directory, as rename does; it fails when the target is taken, or at
     the whim of the file system.
     */
    method Rename(staging: string, jobId: string, binding: JobFileBinding) returns (o: Outcome)
      requires staging in dirs && staging != jobId
      modifies this`dirs, this`script
      ensures o == Bound(binding) || o.Died? || o == Failed(PublishFailed)
      ensures || dirs == old(dirs)
              || dirs == old(dirs) - {staging}
              || (!old(Taken(jobId)) && (o.Bound? || o.Died?)
                  && dirs == (old(dirs) - {staging})[jobId := old(dirs)[staging]])
      ensures o.Bound? ==> !old(Taken(jobId)) && dirs == (old(dirs) - {staging})[jobId := old(dirs)[staging]]
      ensures old(Working()) ==> Working() && (o.Bound? <==> !old(Taken(jobId))) && !o.Died?
      ensures Death !in old(script) ==> Death !in script && !o.Died?
    {
      var f := NextFate();
      if f.Death? {
        return Died;
      }
      if f.IoError? || Taken(jobId) {
        o := Discard(staging, PublishFailed);
        return;
      }
      dirs := (dirs - {staging})[jobId := dirs[staging]];
      f := NextFate();
      return if f.Death? then Died else Bound(binding);
    }

    /** Render into staging, write the manifest; on success the staged directory is complete. */
    method Stage(staging: string, jobId: string, range: Range) returns (o: RenderOutcome, ghost made: bool)
      requires staging in dirs && dirs[staging] == map[] && HomeOf(jobId) != Some(staging)
      modifies this`dirs, this`results, this`script
      ensures OnlyTouched(old(dirs), staging, jobId, made)
      ensures results == if made then old(results) + {jobId} else old(results)
      ensures Rendering(dirs[staging], range, jobId, o, made)
      ensures o.Rendered? ==> Complete(sum, jobId, dirs[staging]) && dirs[staging][MANIFEST].binding == o.binding
      ensures old(Working()) ==> Working() && Decided(range, o, made)
      ensures Death !in old(script) ==> Death !in script && !o.RenderDied?
    {
      o, made := Render(staging, jobId, range);
      if !o.Rendered? {
        return;
      }
      ManifestCompletes(sum, range, resultTarget, dirs[staging], o.binding);
      RenderedFilesAreOwn(dirs[staging], range.groups[0], MANIFEST, ManifestFile(o.binding));
      var f := Write(staging, MANIFEST, ManifestFile(o.binding));
      if !f.Fine? {
        return Failure(f), made;
      }
    }

    lemma TouchedKeeps(before: map<string, Dir>, staging: string, jobId: string, made: bool)
      requires AllPublished(sum, place, before) && !SafeName(staging) && HomeOf(jobId) != Some(staging)
      requires OnlyTouched(before, staging, jobId, made) && place != Inside(staging)
      requires AllSourced(Manifests(before), results)
      ensures Published() && Manifests(dirs) == Manifests(before)
    {
      var home := HomeOf(jobId);
      if made && home.Some? && home.value !in before {
        EmptyDirsDoNotMatter(sum, place, before, home.value);
      }
      UnsafeNamesDoNotMatter(sum, place, if made then WithResults(before, jobId) else before, staging, dirs[staging]);
    }

    /** What became of the job's directory: nothing, a directory for results alone, or the published inputs. */
    ghost predicate Landed(before: map<string, Dir>, jobId: string, range: Range, made: bool, o: Outcome)
      reads this
    {
      (|| (&& Manifests(dirs) == Manifests(before) && !o.Bound?
           && (jobId in dirs <==> made && HomeOf(jobId) == Some(jobId)) && (jobId in dirs ==> Bare(dirs, jobId)))
       || (exists b :: Manifests(dirs) == Manifests(before)[jobId := b] && made
                       && RenderedFrom(range, jobId, b) && (o == Bound(b) || o == Died)
                       && jobId in dirs && !Bare(dirs, jobId) && ResultsRedirected(range, resultTarget, dirs[jobId], b)
                       && Equipped(range, dirs[jobId], b))
      ) == true
    }

    /** No directory has come to be but these. */
    ghost predicate OnlyNew(before: map<string, Dir>, staging: string, jobId: string)
      reads this
    {
      forall n :: n in dirs ==> n in before || n == staging || n == jobId || HomeOf(jobId) == Some(n)
    }

    /** Where no operation fails, the job is bound if and only if all is in order and its directory is free. */
    ghost predicate Settled(range: Range, jobId: string, made: bool, o: Outcome) {
      (&& (made <==> RangeOk(range) && LauncherOk(range))
       && (o.Bound? <==> made && GroupsOk(range, resultTarget) && place != Inside(jobId))
       && !o.Died? && !o.OsError?) == true
    }

    /** The staged directory has become that of the job. */
    lemma RenamedLands(whole: map<string, Dir>, before: map<string, Dir>, staging: string, jobId: string, range: Range,
                       b: JobFileBinding, o: Outcome)
      requires AllPublished(sum, place, whole) && AllSourced(Manifests(whole), results) && jobId in results
      requires SafeName(jobId) && !SafeName(staging) && place != Inside(staging) && place != Inside(jobId)
      requires staging in whole && Complete(sum, jobId, whole[staging]) && whole[staging][MANIFEST].binding == b
      requires Manifests(whole) == Manifests(before) && (o == Bound(b) || o == Died)
      requires dirs == (whole - {staging})[jobId := whole[staging]]
      requires Rendering(whole[staging], range, jobId, Rendered(b), true)
      ensures Published() && Landed(before, jobId, range, true, o)
    {
      UnsafeNamesDoNotMatter(sum, place, whole, staging, map[]);
      CompleteDirsPublish(sum, place, whole - {staging}, jobId, whole[staging]);
      OneMoreSourced(Manifests(whole), results, b);
      assert Manifests(dirs) == Manifests(before)[jobId := b];
      assert !Bare(dirs, jobId) && ResultsRedirected(range, resultTarget, dirs[jobId], b);
      assert Equipped(range, dirs[jobId], b);
    }

    /** The staged directory is renamed into place, or removed. */
    method Conclude(staging: string, jobId: string, range: Range, staged: RenderOutcome, ghost made: bool,
                    ghost before: map<string, Dir>) returns (o: Outcome)
      requires Published() && SafeName(jobId) && !SafeName(staging) && place != Inside(staging) && staging in dirs
      requires Manifests(dirs) == Manifests(before) && OnlyNew(before, staging, jobId)
      requires jobId in dirs <==> made && HomeOf(jobId) == Some(jobId)
      requires jobId in dirs ==> dirs[jobId] == map[]
      requires !staged.RenderDied? && Rendering(dirs[staging], range, jobId, staged, made)
      requires staged.Rendered? ==>
                 Complete(sum, jobId, dirs[staging]) && dirs[staging][MANIFEST].binding == staged.binding
      requires made ==> jobId in results
      modifies this`dirs, this`script
      ensures Published() && Landed(before, jobId, range, made, o) && OnlyNew(before, staging, jobId)
      ensures o.Bound? || o.Died? || o == Failed(BadInput) || o == Failed(PublishFailed)
      ensures o.Bound? ==> o.binding.jobId == jobId && Sourced(o.binding) && made
      ensures old(Working()) && Decided(range, staged, made) ==> Working() && Settled(range, jobId, made, o)
      ensures Death !in old(script) ==> Death !in script && !o.Died?
    {
      UnsafeNamesDoNotMatter(sum, place, dirs, staging, map[]);
      ghost var whole := dirs;
      if staged.RenderFailed? {
        o := Discard(staging, staged.e);
        return;
      }
      o := Rename(staging, jobId, staged.binding);
      if place != Inside(jobId) && (o.Bound? || o.Died?) && dirs == (whole - {staging})[jobId := whole[staging]] {
        RenamedLands(whole, before, staging, jobId, range, staged.binding, o);
      }
    }

    /** Stage and rename into place. */
    method Publish(jobId: string, range: Range, suffix: string) returns (o: Outcome, ghost made: bool)
      requires Published() && SafeName(jobId) && jobId !in dirs
      requires STAGING_PREFIX + suffix !in dirs && place != Inside(STAGING_PREFIX + suffix)
      modifies this`dirs, this`results, this`script
      ensures Published() && Landed(old(dirs), jobId, range, made, o)
      ensures OnlyNew(old(dirs), STAGING_PREFIX + suffix, jobId)
      ensures o.Bound? || o.Died? || o.OsError? || o == Failed(BadInput) || o == Failed(PublishFailed)
      ensures o.Bound? ==> o.binding.jobId == jobId && Sourced(o.binding) && jobId in results
      ensures made ==> RangeOk(range) && LauncherOk(range)
      ensures old(Working()) ==> Working() && Settled(range, jobId, made, o)
      ensures Death !in old(script) ==> Death !in script && !o.Died?
    {
      made := false;
      var staging := STAGING_PREFIX + suffix;
      StagingIsUnsafe(suffix);
      var f := NextFate();
      if !f.Fine? {
        return (if f.Death? then Died else OsError), made;
      }
      UnsafeNamesDoNotMatter(sum, place, dirs, staging, map[]);
      dirs := dirs[staging := map[]];
      ghost var begun := dirs;
      var staged;
      staged, made := Stage(staging, jobId, range);
      SourcedStays(Manifests(begun), old(results), results);
      TouchedKeeps(begun, staging, jobId, made);
      if staged.RenderDied? {
        return Died, made;
      }
      o := Conclude(staging, jobId, range, staged, made, old(dirs));
    }

    /** The binding was published before: it is read, and must be that of the job and the range. */
    method Adopt(jobId: string, rangeId: string) returns (o: Outcome)
      requires Published() && SafeName(jobId) && jobId in dirs && MANIFEST in dirs[jobId]
      modifies this`script
      ensures jobId in Manifests(dirs)
      ensures var b := Manifests(dirs)[jobId];
              || o == (if b.rangeId == rangeId then Bound(b) else Failed(Mismatch))
              || o == OsError || o == Died
      ensures o.Bound? ==> o.binding.jobId == jobId && Sourced(o.binding) && jobId in results
      ensures old(Working()) ==> Working() && !o.Died? && !o.OsError?
      ensures Death !in old(script) ==> Death !in script && !o.Died?
    {
      assert jobId in Manifests(dirs) && Manifests(dirs)[jobId] == dirs[jobId][MANIFEST].binding;
      var f := NextFate();
      if !f.Fine? {
        return if f.Death? then Died else OsError;
      }
      var binding := dirs[jobId][MANIFEST].binding;
      if binding.jobId != jobId || binding.rangeId != rangeId {
        return Failed(Mismatch);
      }
      return Bound(binding);
    }

    /**
     Bind a job to its published input set: adopt what is there, or publish it.  The guards come in
     the order of the source; reading the manifest is a file operation like the others.
     */
    method Bind(jobId: string, rangeId: string, catalog: CatalogAnswer,
                suffix: string) returns (o: Outcome, ghost made: bool)
      requires Published()
      requires catalog.Found? ==> catalog.range.rangeId == rangeId
      requires STAGING_PREFIX + suffix !in dirs && place != Inside(STAGING_PREFIX + suffix)
      modifies this`dirs, this`results, this`script
      ensures Published()
      ensures BindStep(Manifests(old(dirs)), jobId, rangeId, catalog, o, Manifests(dirs))
      ensures o.Bound? ==> o.binding.jobId == jobId && Sourced(o.binding) && jobId in results
      ensures o == Failed(Partial) <==> SafeName(jobId) && catalog.Found? && catalog.range.available && Bare(old(dirs), jobId)
      ensures Bare(dirs, jobId) <==>
                old(Bare(dirs, jobId)) || (made && HomeOf(jobId) == Some(jobId) && jobId !in Manifests(dirs))
      ensures OnlyNew(old(dirs), STAGING_PREFIX + suffix, jobId)
      ensures made ==> SafeName(jobId) && jobId !in old(dirs) && catalog.Found? && catalog.range.available
                       && RangeOk(catalog.range) && LauncherOk(catalog.range)
      ensures old(Working()) && SafeName(jobId) && catalog.Found? && catalog.range.available && jobId !in old(dirs) ==>
                && (made <==> RangeOk(catalog.range) && LauncherOk(catalog.range))
                && (o.Bound? <==> made && GroupsOk(catalog.range, resultTarget) && place != Inside(jobId))
      ensures old(Working()) ==> Working() && !o.Died? && !o.OsError?
      ensures Death !in old(script) ==> Death !in script && !o.Died?
    {
      made := false;
      if !SafeName(jobId) {
        return Failed(UnsafeJobId), made;
      }
      if catalog.CatalogRaises? {
        return Untrusted, made;
      }
      if catalog.NoRange? || !catalog.range.available {
        return Failed(RangeUnavailable), made;
      }
      if jobId in dirs && MANIFEST in dirs[jobId] {
        o := Adopt(jobId, rangeId);
        return o, made;
      }
      if jobId in dirs {
        return Failed(Partial), made;
      }
      o, made := Publish(jobId, catalog.range, suffix);
    }
  }

  /** Where results are kept apart from the inputs of a job, its directory is never without its manifest. */
  lemma ApartIsNeverBare(sum: Content -> string, place: ResultsPlace, m: map<string, Dir>, jobId: string)
    requires AllPublished(sum, place, m) && SafeName(jobId)
    ensures Bare(m, jobId) ==> ForResults(place, jobId)
  {
  }

  /**
   A fresh shared root, where no operation fails: the first bind of a job reports a partial binding if and
   only if results are kept in the child of the root that has the name of the job, for that child has been
   made at the start.
   */
  method BindAfterPreflight(files: SharedFiles, jobId: string, range: Range, suffix: string) returns (o: Outcome)
    requires files.Published() && files.Working() && files.dirs == map[] && SafeName(jobId) && range.available
    requires files.place != Inside(STAGING_PREFIX + suffix)
    modifies files`dirs, files`results, files`script
    ensures o == Failed(Partial) <==> files.place == Inside(jobId)
  {
    ghost var made;
    var f := files.Preflight();
    o, made := files.Bind(jobId, range.rangeId, Found(range), suffix);
  }

  /**
   A range is refused for its group, which is checked after the result directory has been made; no file
   operation fails.  Every retry then reports a partial binding if and only if results are kept in the
   shared root itself, or in the child of it that has the name of the job.
   */
  method RetryAfterARefusal(files: SharedFiles, jobId: string, range: Range, suffix: string, again: string)
    returns (first: Outcome, second: Outcome)
    requires files.Published() && files.Working() && SafeName(jobId) && jobId !in Manifests(files.dirs)
    requires range.available && RangeOk(range) && LauncherOk(range) && !GroupsOk(range, files.resultTarget)
    requires suffix != again
    requires STAGING_PREFIX + suffix !in files.dirs && files.place != Inside(STAGING_PREFIX + suffix)
    requires STAGING_PREFIX + again !in files.dirs && files.place != Inside(STAGING_PREFIX + again)
    modifies files`dirs, files`results, files`script
    ensures !first.Bound? && !second.Bound?
    ensures second == Failed(Partial) <==> ForResults(files.place, jobId)
  {
    ghost var made;
    StagingIsUnsafe(suffix);
    StagingIsUnsafe(again);
    assert (STAGING_PREFIX + suffix)[|STAGING_PREFIX|..] == suffix;
    assert (STAGING_PREFIX + again)[|STAGING_PREFIX|..] == again;
    first, made := files.Bind(jobId, range.rangeId, Found(range), suffix);
    ApartIsNeverBare(files.sum, files.place, files.dirs, jobId);
    second, made := files.Bind(jobId, range.rangeId, Found(range), again);
  }
}
