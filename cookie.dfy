/**
 * The Docker driver's cookie: the per-call record from which a container is
 * created.  Each `Configure…` method fills one part of the container create
 * options from the task; `CreateContainer`, `Close`, `ValidateImage` and
 * `PullImage` wrap calls into the Docker client, whose results are given as
 * parameters and whose requests are recorded on the driver.
 */
module DockerCookie {
  import opened Wrappers
  import opened Text

  // ------------------------------------------------------ machine integers

  const TwoTo63: int := 0x8000_0000_0000_0000
  const TwoTo64: int := 0x1_0000_0000_0000_0000

  /** Go's `uint64`. */
  type U64 = x: int | 0 <= x < 0x1_0000_0000_0000_0000

  predicate IsInt64(x: int) {
    -TwoTo63 <= x < TwoTo63
  }

  /** Go's conversion `int64(u)`: the same 64 bits read as a two's-complement number. */
  function ToInt64(u: U64): (r: int)
    ensures IsInt64(r)
    ensures (r - u) % TwoTo64 == 0
    ensures u < TwoTo63 ==> r == u
  {
    if u < TwoTo63 then u else u - TwoTo64
  }

  /** The CFS enforcement period, in microseconds. */
  const CfsPeriod: int := 100000

  /**
   * The CFS quota for `cpus` milli-CPUs: `int64(cpus * 100)`, the product
   * taken modulo 2^64 as uint64 arithmetic does.  Unless the product
   * overflows int64, quota over period is the number of CPUs, `cpus / 1000`.
   */
  function CpuQuota(cpus: U64): (q: int)
    ensures IsInt64(q)
    ensures (q - cpus * 100) % TwoTo64 == 0
    ensures cpus * 100 < TwoTo63 ==> q == cpus * 100 && q * 1000 == cpus * CfsPeriod
  {
    ToInt64((cpus * 100) % TwoTo64)
  }

  // ------------------------------------------------------------ the record

  datatype LogConfig = LogConfig(logType: string, config: map<string, string>)

  /** The container part of the create options (a nil map or slice is an empty one). */
  datatype Config = Config(
    memory: int, memorySwap: int, kernelMemory: int,
    volumes: set<string>, workingDir: string, hostname: string,
    cmd: seq<string>, env: seq<string>)

  /** The host part of the create options. */
  datatype HostConfig = HostConfig(
    logConfig: LogConfig, storageOpt: map<string, string>, tmpfs: map<string, string>,
    binds: seq<string>, cpuQuota: int, cpuPeriod: int, networkMode: string)

  datatype CreateContainerOptions = CreateContainerOptions(name: string, config: Config, hostConfig: HostConfig)

  datatype LoggerTag = LoggerTag(name: string, value: string)

  /** Where the container's output goes: a syslog URL (empty for none) and tags. */
  datatype LoggerConfig = LoggerConfig(url: string, tags: seq<LoggerTag>)

  /** What the cookie reads of its task.  Sizes are in MB, CPUs in milli-CPUs. */
  datatype Task = Task(
    id: string, image: string, command: string, workDir: string,
    memory: U64, cpus: U64, fsSize: U64, tmpFsSize: U64,
    envVars: map<string, string>, volumes: seq<seq<string>>,
    udsDockerPath: string, udsDockerDest: string, loggerConfig: LoggerConfig)

  datatype DriverConf = DriverConf(enableReadOnlyRootFs: bool, maxTmpFsInodes: U64)

  datatype AuthConf = AuthConf(username: string, password: string, email: string, serverAddress: string)

  /** Errors of the Docker client and the API error PullImage reports. */
  datatype Error =
    | ErrNoSuchImage                          // the client's sentinel for a missing image
    | ErrContainerAlreadyExists               // the client's sentinel for a name already taken
    | DockerError(status: int, message: string)   // an error response from the daemon
    | OtherError(text: string)
    | ApiError(code: int, message: string)        // an error with an HTTP status for the caller

  /** A request the cookie made of the Docker client or of the driver's pools. */
  datatype DockerRequest =
    | RemoveContainer(id: string)
    | UnpickPool(poolId: string)
    | UnpickNetwork(netId: string)
    | CreateContainer(opts: CreateContainerOptions)
    | InspectImage(image: string)
    | PullImage(registry: string, repo: string, tag: string, auth: AuthConf)

  /** How the task answers the registry-credentials question. */
  datatype AuthLookup = NotAnAuther | AuthFailed(err: Error) | AuthFound(conf: Option<AuthConf>)

  // ------------------------------------------------------ option strings

  /** `s` with the prefix `p` removed, or None when `s` does not start with `p`. */
  function StripPrefix(s: string, p: string): (r: Option<string>)
    ensures r.Some? ==> s == p + r.value
  {
    if |p| <= |s| && s[..|p|] == p then Some(s[|p|..]) else None
  }

  lemma StripPrefixOf(p: string, x: string)
    ensures StripPrefix(p + x, p) == Some(x)
  {
    assert (p + x)[..|p|] == p;
    assert (p + x)[|p|..] == x;
  }

  /** The storage size option, `"<n>M"`; it reads back to `n`. */
  function StorageSize(n: U64): (r: string)
    ensures ParseSuffixed(r, 'M') == Some(n)
  {
    SuffixedRoundTrip(n, 'M');
    Decimal(n) + "M"
  }

  /** The first piece of a tmpfs option, `"size=<n>m"`. */
  function SizePiece(size: nat): string {
    "size=" + Decimal(size) + "m"
  }

  function InodesPiece(inodes: nat): string {
    "nr_inodes=" + Decimal(inodes)
  }

  /**
   * The options of the tmpfs mounted on /tmp: empty when the size is 0, else
   * the size in MB followed by the inode limit when there is one.
   */
  function TmpFsOption(size: U64, inodes: U64): (r: string)
    ensures r == "" <==> size == 0
    ensures size != 0 ==> ParseTmpFsOption(r) == Some((size as nat, inodes as nat))
    ensures size != 0 ==> (',' in r <==> inodes != 0)
  {
    if size == 0 then ""
    else
      TmpFsOptionRoundTrip(size, inodes);
      SizePieceReads(size);
      InodesPieceReads(inodes);
      if inodes != 0 then SizePiece(size) + "," + InodesPiece(inodes) else SizePiece(size)
  }

  /** Reads a tmpfs option back into its size and inode limit (0 for none). */
  function ParseTmpFsOption(s: string): Option<(nat, nat)> {
    var parts := Split(s, ',');
    var size := StripPrefix(parts[0], "size=");
    if size.None? then None
    else
      var n := ParseSuffixed(size.value, 'm');
      if n.None? then None
      else if |parts| == 1 then Some((n.value, 0))
      else if |parts| > 2 then None
      else
        var k := StripPrefix(parts[1], "nr_inodes=");
        if k.None? then None
        else
          var v := ParseNat(k.value);
          if v.None? then None else Some((n.value, v.value))
  }

  /** The size piece holds no ',' and reads back to the size. */
  lemma SizePieceReads(size: nat)
    ensures ',' !in SizePiece(size)
    ensures var x := StripPrefix(SizePiece(size), "size=");
      x.Some? && ParseSuffixed(x.value, 'm') == Some(size)
  {
    assert ',' !in Decimal(size);
    assert SizePiece(size) == "size=" + (Decimal(size) + "m");
    StripPrefixOf("size=", Decimal(size) + "m");
    SuffixedRoundTrip(size, 'm');
  }

  /** The inode piece holds no ',' and reads back to the inode limit. */
  lemma InodesPieceReads(inodes: nat)
    ensures ',' !in InodesPiece(inodes)
    ensures var x := StripPrefix(InodesPiece(inodes), "nr_inodes=");
      x.Some? && ParseNat(x.value) == Some(inodes)
  {
    assert ',' !in Decimal(inodes);
    StripPrefixOf("nr_inodes=", Decimal(inodes));
    DecimalRoundTrip(inodes);
  }

  lemma TmpFsOptionRoundTrip(size: nat, inodes: nat)
    requires size != 0
    ensures var r := if inodes != 0 then SizePiece(size) + "," + InodesPiece(inodes) else SizePiece(size);
            ParseTmpFsOption(r) == Some((size, inodes))
  {
    var sp := SizePiece(size);
    SizePieceReads(size);
    if inodes != 0 {
      var ip := InodesPiece(inodes);
      InodesPieceReads(inodes);
      assert Join([sp, ip], [',']) == sp + "," + ip;
      SplitJoin([sp, ip], ',');
    } else {
      assert Join([sp], [',']) == sp;
      SplitJoin([sp], ',');
    }
  }

  /** A bind mount, `"<host>:<container>"`; with no ':' in the host path it splits back. */
  function Bind(host: string, container: string): (r: string)
    ensures ':' !in host ==> Cut(r, ':') == Some((host, container))
  {
    var r := host + ":" + container;
    if ':' !in host then CutJoined(host, ':', container); r else r
  }

  /** An environment entry, `"<name>=<value>"`; with no '=' in the name it splits back. */
  function EnvEntry(name: string, value: string): (r: string)
    ensures '=' !in name ==> Cut(r, '=') == Some((name, value))
  {
    var r := name + "=" + value;
    if '=' !in name then CutJoined(name, '=', value); r else r
  }

  /** A log tag as `"<name>=<value>"`; with no '=' in the name it decodes back to the tag. */
  function TagEntry(tag: LoggerTag): (r: string)
    ensures '=' !in tag.name ==> '=' in r && DecodeTag(r) == tag
  {
    var r := tag.name + "=" + tag.value;
    if '=' !in tag.name then
      CutJoined(tag.name, '=', tag.value);
      assert r[|tag.name|] == '=';
      r
    else r
  }

  /** The log tags as `name=value` strings, in order. */
  function TagStrings(tags: seq<LoggerTag>): (r: seq<string>)
    ensures |r| == |tags|
  {
    seq(|tags|, i requires 0 <= i < |tags| => TagEntry(tags[i]))
  }

  /** The syslog "tag" option: the tags' `name=value` strings joined by commas. */
  function TagsOption(tags: seq<LoggerTag>): string {
    Join(TagStrings(tags), ",")
  }

  /** Reads a "tag" option back into name/value pairs. */
  function ParseTags(s: string): Option<seq<LoggerTag>> {
    var parts := Split(s, ',');
    if forall k :: 0 <= k < |parts| ==> '=' in parts[k] then
      Some(seq(|parts|, k requires 0 <= k < |parts| => DecodeTag(parts[k])))
    else None
  }

  /** Reads one `name=value` string, splitting at its first '='. */
  function DecodeTag(p: string): LoggerTag
    requires '=' in p
  {
    var nv := Cut(p, '=').value;
    LoggerTag(nv.0, nv.1)
  }

  /** Tags whose names hold no ',' or '=' and whose values hold no ',' are recovered from the "tag" option. */
  lemma TagsRoundTrip(tags: seq<LoggerTag>)
    requires |tags| > 0
    requires forall k :: 0 <= k < |tags| ==> ',' !in tags[k].name && '=' !in tags[k].name && ',' !in tags[k].value
    ensures ParseTags(TagsOption(tags)) == Some(tags)
  {
    var strs := TagStrings(tags);
    forall k | 0 <= k < |strs|
      ensures ',' !in strs[k]
      ensures Cut(strs[k], '=') == Some((tags[k].name, tags[k].value))
    {
      assert strs[k] == tags[k].name + "=" + tags[k].value;
    }
    SplitJoin(strs, ',');
    var decoded := seq(|strs|, k requires 0 <= k < |strs| => DecodeTag(strs[k]));
    forall k | 0 <= k < |tags| ensures decoded[k] == tags[k] {
      assert Cut(strs[k], '=').value == (tags[k].name, tags[k].value);
    }
    assert decoded == tags;
    assert ParseTags(TagsOption(tags)) == Some(decoded);
  }

  /** The syslog options common to every call with a log URL. */
  function SyslogConfig(url: string): map<string, string> {
    map["syslog-address" := url, "syslog-facility" := "user", "syslog-format" := "rfc5424"]
  }

  /** The binds of volume mappings `[host, container]`, in order. */
  function VolumeBinds(volumes: seq<seq<string>>): (r: seq<string>)
    requires forall k :: 0 <= k < |volumes| ==> |volumes[k]| >= 2
    ensures |r| == |volumes|
  {
    seq(|volumes|, k requires 0 <= k < |volumes| => Bind(volumes[k][0], volumes[k][1]))
  }

  /** The container-side directories of volume mappings. */
  function ContainerDirs(volumes: seq<seq<string>>): set<string>
    requires forall k :: 0 <= k < |volumes| ==> |volumes[k]| >= 2
  {
    set k | 0 <= k < |volumes| :: volumes[k][1]
  }

  /** `order` lists every key of `keys` exactly once. */
  ghost predicate IsEnumeration(order: seq<string>, keys: set<string>) {
    && (forall i, j :: 0 <= i < j < |order| ==> order[i] != order[j])
    && (forall k :: k in keys <==> k in order)
  }

  /** The environment entries of `env`, in the order `order` lists its names. */
  function EnvEntries(order: seq<string>, env: map<string, string>): (r: seq<string>)
    requires forall k :: k in order ==> k in env
    ensures |r| == |order|
  {
    seq(|order|, i requires 0 <= i < |order| => EnvEntry(order[i], env[order[i]]))
  }

  // -------------------------------------------------------- image errors

  /**
   * The message of a daemon error: the "message" field of its JSON body, or
   * the raw body when that is not JSON.  `decode` is the JSON decoder: the
   * message field of a body that parses, nothing for one that does not.
   */
  function DockerMsg(derr: Error, decode: string -> Option<string>): (msg: string)
    requires derr.DockerError?
    ensures decode(derr.message).None? ==> msg == derr.message
    ensures decode(derr.message).Some? ==> msg == decode(derr.message).value
  {
    match decode(derr.message)
    case None => derr.message
    case Some(m) => m
  }

  /**
   * The text (`err.Error()`) of an error that is not a daemon error; the two
   * sentinels carry the Docker client's texts.
   */
  function ErrorText(e: Error): string
    requires !e.DockerError?
  {
    if e.ErrNoSuchImage? then "no such image"
    else if e.ErrContainerAlreadyExists? then "container already exists"
    else if e.OtherError? then e.text
    else e.message
  }

  const PullPrefix := "Failed to pull image '"

  /** The message of a failed pull: the image and the cause. */
  function PullMessage(image: string, msg: string): string {
    PullPrefix + image + "': " + msg
  }

  /** Reads a pull-failure message back into the image and the cause. */
  function ParsePullMessage(s: string): Option<(string, string)> {
    var rest := StripPrefix(s, PullPrefix);
    if rest.None? then None
    else
      var cut := Cut(rest.value, '\'');
      if cut.None? then None
      else
        var tail := StripPrefix(cut.value.1, ": ");
        if tail.None? then None else Some((cut.value.0, tail.value))
  }

  lemma PullMessageRoundTrip(image: string, msg: string)
    requires '\'' !in image
    ensures ParsePullMessage(PullMessage(image, msg)) == Some((image, msg))
  {
    var s := PullMessage(image, msg);
    var rest := image + ['\''] + (": " + msg);
    assert s == PullPrefix + rest;
    StripPrefixOf(PullPrefix, rest);
    CutJoined(image, '\'', ": " + msg);
    StripPrefixOf(": ", msg);
  }

  /**
   * The error a failed pull is reported as: the daemon's status and message
   * for a daemon error, 500 and the error's text for any other, and in both
   * cases a message naming the image.
   */
  function PullFailure(image: string, e: Error, decode: string -> Option<string>): (r: Error)
    ensures r.ApiError?
    ensures r.code == if e.DockerError? then e.status else 500
    ensures '\'' !in image ==>
      ParsePullMessage(r.message) == Some((image, if e.DockerError? then DockerMsg(e, decode) else ErrorText(e)))
  {
    var msg := if e.DockerError? then DockerMsg(e, decode) else ErrorText(e);
    var code := if e.DockerError? then e.status else 500;
    var r := ApiError(code, PullMessage(image, msg));
    if '\'' !in image then PullMessageRoundTrip(image, msg); r else r
  }

  // ------------------------------------------------------ driver and cookie

  /** The parts of the Docker driver a cookie uses, and the requests it has received. */
  class Driver {
    const conf: DriverConf
    const hostname: string
    var requests: seq<DockerRequest>

    constructor (conf: DriverConf, hostname: string)
      ensures this.conf == conf && this.hostname == hostname && requests == []
    {
      this.conf := conf;
      this.hostname := hostname;
      requests := [];
    }
  }

  /** One request to run a task: the create options being built and the container's lifecycle flags. */
  class Cookie {
    const poolId: string
    const netId: string
    var opts: CreateContainerOptions
    const task: Task
    const drv: Driver
    var isCreated: bool
    const imgReg: string
    const imgRepo: string
    const imgTag: string
    var imgAuthConf: Option<AuthConf>

    constructor (poolId: string, netId: string, opts: CreateContainerOptions, task: Task, drv: Driver,
                 imgReg: string, imgRepo: string, imgTag: string)
      ensures this.poolId == poolId && this.netId == netId && this.opts == opts && this.task == task
      ensures this.drv == drv && this.imgReg == imgReg && this.imgRepo == imgRepo && this.imgTag == imgTag
      ensures !isCreated && imgAuthConf == None
    {
      this.poolId, this.netId, this.opts, this.task, this.drv := poolId, netId, opts, task, drv;
      this.imgReg, this.imgRepo, this.imgTag := imgReg, imgRepo, imgTag;
      isCreated := false;
      imgAuthConf := None;
    }

    /**
     * No log URL: logging type "none" and no options.  Otherwise syslog to
     * the URL with facility "user", RFC 5424 format, and a "tag" option,
     * present exactly when there are tags, holding them as comma-joined
     * `name=value` pairs.
     */
    method ConfigureLogger()
      modifies this`opts
      ensures opts == old(opts).(hostConfig := old(opts).hostConfig.(logConfig := opts.hostConfig.logConfig))
      ensures task.loggerConfig.url == "" ==> opts.hostConfig.logConfig == LogConfig("none", map[])
      ensures task.loggerConfig.url != "" ==>
        && opts.hostConfig.logConfig.logType == "syslog"
        && opts.hostConfig.logConfig.config
             == SyslogConfig(task.loggerConfig.url)
                + (if |task.loggerConfig.tags| > 0 then map["tag" := TagsOption(task.loggerConfig.tags)] else map[])
        && ("tag" in opts.hostConfig.logConfig.config <==> |task.loggerConfig.tags| > 0)
    {
      var conf := task.loggerConfig;
      if conf.url == "" {
        opts := opts.(hostConfig := opts.hostConfig.(logConfig := LogConfig("none", map[])));
        return;
      }
      opts := opts.(hostConfig := opts.hostConfig.(logConfig := LogConfig("syslog", SyslogConfig(conf.url))));
      var tags: seq<string> := [];
      var i := 0;
      while i < |conf.tags|
        invariant 0 <= i <= |conf.tags|
        invariant tags == TagStrings(conf.tags[..i])
      {
        tags := tags + [TagEntry(conf.tags[i])];
        i := i + 1;
      }
      assert conf.tags[..i] == conf.tags;
      if |tags| > 0 {
        var lc := opts.hostConfig.logConfig;
        opts := opts.(hostConfig := opts.hostConfig.(logConfig := lc.(config := lc.config["tag" := Join(tags, ",")])));
      }
    }

    /** A zero memory limit leaves the options alone; otherwise memory, swap and kernel memory are all the limit. */
    method ConfigureMem()
      modifies this`opts
      ensures task.memory == 0 ==> opts == old(opts)
      ensures task.memory != 0 ==>
        var mem := ToInt64(task.memory);
        opts == old(opts).(config := old(opts).config.(memory := mem, memorySwap := mem, kernelMemory := mem))
    {
      if task.memory == 0 {
        return;
      }
      var mem := ToInt64(task.memory);
      opts := opts.(config := opts.config.(memory := mem, memorySwap := mem, kernelMemory := mem));
    }

    /** A zero size leaves the options alone; otherwise the "size" storage option is the size in MB. */
    method ConfigureFsSize()
      modifies this`opts
      ensures task.fsSize == 0 ==> opts == old(opts)
      ensures task.fsSize != 0 ==>
        opts == old(opts).(hostConfig := old(opts).hostConfig.(
          storageOpt := old(opts).hostConfig.storageOpt["size" := StorageSize(task.fsSize)]))
    {
      if task.fsSize == 0 {
        return;
      }
      opts := opts.(hostConfig := opts.hostConfig.(storageOpt := opts.hostConfig.storageOpt["size" := StorageSize(task.fsSize)]));
    }

    /**
     * With no tmpfs size and a writable root the options are left alone;
     * otherwise /tmp gets a tmpfs whose options carry the size and inode
     * limit, and the other tmpfs mounts are kept.
     */
    method ConfigureTmpFs()
      modifies this`opts
      ensures task.tmpFsSize == 0 && !drv.conf.enableReadOnlyRootFs ==> opts == old(opts)
      ensures task.tmpFsSize != 0 || drv.conf.enableReadOnlyRootFs ==>
        opts == old(opts).(hostConfig := old(opts).hostConfig.(
          tmpfs := old(opts).hostConfig.tmpfs["/tmp" := TmpFsOption(task.tmpFsSize, drv.conf.maxTmpFsInodes)]))
    {
      if task.tmpFsSize == 0 && !drv.conf.enableReadOnlyRootFs {
        return;
      }
      var tmpFsOption := "";
      if task.tmpFsSize != 0 {
        if drv.conf.maxTmpFsInodes != 0 {
          tmpFsOption := SizePiece(task.tmpFsSize) + "," + InodesPiece(drv.conf.maxTmpFsInodes);
        } else {
          tmpFsOption := SizePiece(task.tmpFsSize);
        }
      }
      opts := opts.(hostConfig := opts.hostConfig.(tmpfs := opts.hostConfig.tmpfs["/tmp" := tmpFsOption]));
    }

    /** With a UDS path, binds it to its destination after the existing binds; without one, does nothing. */
    method ConfigureIOFS()
      modifies this`opts
      ensures task.udsDockerPath == "" ==> opts == old(opts)
      ensures task.udsDockerPath != "" ==>
        opts == old(opts).(hostConfig := old(opts).hostConfig.(
          binds := old(opts).hostConfig.binds + [Bind(task.udsDockerPath, task.udsDockerDest)]))
    {
      var path := task.udsDockerPath;
      if path == "" {
        return;
      }
      var bind := Bind(path, task.udsDockerDest);
      opts := opts.(hostConfig := opts.hostConfig.(binds := opts.hostConfig.binds + [bind]));
    }

    /**
     * Adds each mapping's container directory to the volumes and appends its
     * `host:container` bind, in mapping order, after the existing binds.
     */
    method ConfigureVolumes()
      requires forall k :: 0 <= k < |task.volumes| ==> |task.volumes[k]| >= 2
      modifies this`opts
      ensures opts == old(opts).(
        config := old(opts).config.(volumes := old(opts).config.volumes + ContainerDirs(task.volumes)),
        hostConfig := old(opts).hostConfig.(binds := old(opts).hostConfig.binds + VolumeBinds(task.volumes)))
    {
      var volumes := task.volumes;
      if |volumes| == 0 {
        assert VolumeBinds(volumes) == [] && ContainerDirs(volumes) == {};
        return;
      }
      var i := 0;
      while i < |volumes|
        invariant 0 <= i <= |volumes|
        invariant opts == old(opts).(
          config := old(opts).config.(volumes := old(opts).config.volumes + ContainerDirs(volumes[..i])),
          hostConfig := old(opts).hostConfig.(binds := old(opts).hostConfig.binds + VolumeBinds(volumes[..i])))
      {
        var hostDir := volumes[i][0];
        var containerDir := volumes[i][1];
        assert ContainerDirs(volumes[..i + 1]) == ContainerDirs(volumes[..i]) + {containerDir} by {
          assert forall k :: 0 <= k < i + 1 ==> volumes[..i + 1][k] == volumes[k];
          assert forall k :: 0 <= k < i ==> volumes[..i][k] == volumes[k];
        }
        assert VolumeBinds(volumes[..i + 1]) == VolumeBinds(volumes[..i]) + [Bind(hostDir, containerDir)];
        opts := opts.(config := opts.config.(volumes := opts.config.volumes + {containerDir}));
        opts := opts.(hostConfig := opts.hostConfig.(binds := opts.hostConfig.binds + [Bind(hostDir, containerDir)]));
        i := i + 1;
      }
      assert volumes[..i] == volumes;
    }

    /** A zero CPU count leaves the options alone; otherwise sets the CFS quota for it over a 100 ms period. */
    method ConfigureCPU()
      modifies this`opts
      ensures task.cpus == 0 ==> opts == old(opts)
      ensures task.cpus != 0 ==>
        opts == old(opts).(hostConfig := old(opts).hostConfig.(cpuQuota := CpuQuota(task.cpus), cpuPeriod := CfsPeriod))
    {
      if task.cpus == 0 {
        return;
      }
      var quota := CpuQuota(task.cpus);
      var period := CfsPeriod;
      opts := opts.(hostConfig := opts.hostConfig.(cpuQuota := quota, cpuPeriod := period));
    }

    /** Sets the working directory when the task names one. */
    method ConfigureWorkDir()
      modifies this`opts
      ensures task.workDir == "" ==> opts == old(opts)
      ensures task.workDir != "" ==> opts == old(opts).(config := old(opts).config.(workingDir := task.workDir))
    {
      var wd := task.workDir;
      if wd == "" {
        return;
      }
      opts := opts.(config := opts.config.(workingDir := wd));
    }

    /** Sets the driver's host name, unless a network mode is set (the two are incompatible). */
    method ConfigureHostname()
      modifies this`opts
      ensures old(opts).hostConfig.networkMode != "" ==> opts == old(opts)
      ensures old(opts).hostConfig.networkMode == "" ==> opts == old(opts).(config := old(opts).config.(hostname := drv.hostname))
    {
      if opts.hostConfig.networkMode != "" {
        return;
      }
      opts := opts.(config := opts.config.(hostname := drv.hostname));
    }

    /** Sets the command to the whitespace-separated fields of the task's command, when it has one. */
    method ConfigureCmd()
      modifies this`opts
      ensures task.command == "" ==> opts == old(opts)
      ensures task.command != "" ==> opts == old(opts).(config := old(opts).config.(cmd := Fields(task.command)))
    {
      if task.command == "" {
        return;
      }
      var cmd := Fields(task.command);
      opts := opts.(config := opts.config.(cmd := cmd));
    }

    /**
     * Appends one `name=value` entry per environment variable after the
     * existing entries.  Map iteration order is unspecified: `order` is the
     * order in which the names were visited, each exactly once.
     */
    method ConfigureEnv() returns (ghost order: seq<string>)
      modifies this`opts
      ensures IsEnumeration(order, task.envVars.Keys)
      ensures forall k :: k in order ==> k in task.envVars
      ensures opts == old(opts).(config := old(opts).config.(env := old(opts).config.env + EnvEntries(order, task.envVars)))
    {
      var env := task.envVars;
      order := [];
      if |env| == 0 {
        return;
      }
      var remaining := env.Keys;
      while remaining != {}
        invariant remaining <= env.Keys
        invariant forall k :: k in order ==> k in env && k !in remaining
        invariant forall k :: k in env ==> k in order || k in remaining
        invariant forall i, j :: 0 <= i < j < |order| ==> order[i] != order[j]
        invariant opts == old(opts).(config := old(opts).config.(env := old(opts).config.env + EnvEntries(order, env)))
        decreases remaining
      {
        var name :| name in remaining;
        opts := opts.(config := opts.config.(env := opts.config.env + [EnvEntry(name, env[name])]));
        assert EnvEntries(order + [name], env) == EnvEntries(order, env) + [EnvEntry(name, env[name])];
        order := order + [name];
        remaining := remaining - {name};
      }
    }

    /**
     * Asks for the container to be removed exactly when it may have been
     * created, and always hands back the pooled namespace and network.
     * Returns the removal's error, if one was asked for.
     */
    method Close(removeErr: Option<Error>) returns (err: Option<Error>)
      modifies drv`requests
      ensures drv.requests == old(drv.requests)
                + (if isCreated then [RemoveContainer(task.id)] else [])
                + [UnpickPool(poolId), UnpickNetwork(netId)]
      ensures err == if isCreated then removeErr else None
    {
      err := None;
      if isCreated {
        drv.requests := drv.requests + [RemoveContainer(task.id)];
        err := removeErr;
      }
      drv.requests := drv.requests + [UnpickPool(poolId)];
      drv.requests := drv.requests + [UnpickNetwork(netId)];
    }

    /**
     * Marks the container as created before asking for it, so that a failed
     * create is still cleaned up; a container that already exists counts as
     * created.
     */
    method CreateContainer(createErr: Option<Error>) returns (err: Option<Error>)
      modifies this`isCreated, drv`requests
      ensures isCreated
      ensures drv.requests == old(drv.requests) + [DockerRequest.CreateContainer(opts)]
      ensures err == if createErr == Some(ErrContainerAlreadyExists) then None else createErr
    {
      isCreated := true;
      drv.requests := drv.requests + [DockerRequest.CreateContainer(opts)];
      err := None;
      if createErr.Some? && createErr != Some(ErrContainerAlreadyExists) {
        err := createErr;
      }
    }

    /**
     * Resolves the registry credentials (the task's own, when it supplies
     * them, else the driver's for the registry) and checks whether the image
     * is present.  Reports that a pull is needed exactly when the image is
     * missing; a failing credentials lookup stops before anything else.
     */
    method ValidateImage(registryConf: Option<AuthConf>, auth: AuthLookup, inspectErr: Option<Error>)
      returns (needsPull: bool, err: Option<Error>)
      modifies this`imgAuthConf, drv`requests
      ensures auth.AuthFailed? ==>
        !needsPull && err == Some(auth.err) && imgAuthConf == old(imgAuthConf) && drv.requests == old(drv.requests)
      ensures !auth.AuthFailed? ==>
        && imgAuthConf == (if auth.AuthFound? && auth.conf.Some? then auth.conf else registryConf)
        && drv.requests == old(drv.requests) + [InspectImage(task.image)]
        && needsPull == (inspectErr == Some(ErrNoSuchImage))
        && err == (if inspectErr == Some(ErrNoSuchImage) then None else inspectErr)
    {
      var config := registryConf;
      match auth {
        case AuthFailed(e) =>
          return false, Some(e);
        case AuthFound(authConfig) =>
          if authConfig.Some? {
            config := authConfig;
          }
        case NotAnAuther =>
      }
      imgAuthConf := config;
      drv.requests := drv.requests + [InspectImage(task.image)];
      if inspectErr == Some(ErrNoSuchImage) {
        return true, None;
      }
      return false, inspectErr;
    }

    /**
     * Pulls the image with the credentials ValidateImage resolved, which must
     * have run first.  A failed pull is reported as PullFailure describes.
     */
    method PullImage(pullErr: Option<Error>, decode: string -> Option<string>) returns (err: Option<Error>)
      requires imgAuthConf.Some?
      modifies drv`requests
      ensures drv.requests == old(drv.requests) + [DockerRequest.PullImage(imgReg, imgRepo, imgTag, imgAuthConf.value)]
      ensures pullErr.None? ==> err == None
      ensures pullErr.Some? ==> err == Some(PullFailure(task.image, pullErr.value, decode))
    {
      var cfg := imgAuthConf.value;
      drv.requests := drv.requests + [DockerRequest.PullImage(imgReg, imgRepo, imgTag, cfg)];
      if pullErr.Some? {
        return Some(PullFailure(task.image, pullErr.value, decode));
      }
      return None;
    }
  }
}
