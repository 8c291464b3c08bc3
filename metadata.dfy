/** src/metadata.rs: the container-metadata snapshot, its wire decoding, its
    accessors, the task-id derivation and the `init` pipeline. */
module Metadata {
  import opened Wrappers
  import opened Errors
  import opened Json
  import opened StrSplit

  /** The environment variable holding the metadata endpoint URL. */
  const MetadataEnvVar: string := "ECS_CONTAINER_METADATA_URI_V4"

  /** Rust's `u16`. */
  type U16 = n: int | 0 <= n < 0x1_0000

  // ---------------------------------------------------------------- records

  datatype ECSContainerLimits = ECSContainerLimits(cpu: U16, mem: U16)

  datatype ECSContainerLabels = ECSContainerLabels(
    cluster: string,
    containerName: string,
    taskArn: string,
    taskDefinitionFamily: string,
    taskDefinitionVersion: string)

  datatype ECSContainerMetadataV4 = ECSContainerMetadataV4(
    dockerId: string,
    image: string,
    labels: ECSContainerLabels,
    limits: ECSContainerLimits)

  // ------------------------------------------------------------ rename table

  const DockerIdKey: string := "DockerId"
  const ImageKey: string := "Image"
  const LabelsKey: string := "Labels"
  const LimitsKey: string := "Limits"
  const ClusterKey: string := "com.amazonaws.ecs.cluster"
  const ContainerNameKey: string := "com.amazonaws.ecs.container-name"
  const TaskArnKey: string := "com.amazonaws.ecs.task-arn"
  const TaskDefinitionFamilyKey: string := "com.amazonaws.ecs.task-definition-family"
  const TaskDefinitionVersionKey: string := "com.amazonaws.ecs.task-definition-version"
  const CpuKey: string := "CPU"
  const MemoryKey: string := "Memory"

  const MetadataKeys: set<string> := {DockerIdKey, ImageKey, LabelsKey, LimitsKey}

  // ---------------------------------------------------------------- decoding

  /** A required `String` field: present and a JSON string. */
  function StringField(fields: map<string, Json>, key: string): Option<string>
  {
    if key in fields && fields[key].JString? then Some(fields[key].s) else None
  }

  /** A required `u16` field: present, an integer, and in range. */
  function U16Field(fields: map<string, Json>, key: string): Option<U16>
  {
    if key in fields && fields[key].JInt? && 0 <= fields[key].n < 0x1_0000
    then Some(fields[key].n) else None
  }

  function DecodeLimits(j: Json): Option<ECSContainerLimits>
  {
    match j
    case JObject(f) =>
      var cpu, mem := U16Field(f, CpuKey), U16Field(f, MemoryKey);
      if cpu.Some? && mem.Some? then Some(ECSContainerLimits(cpu.value, mem.value)) else None
    case _ => None
  }

  function DecodeLabels(j: Json): Option<ECSContainerLabels>
  {
    match j
    case JObject(f) =>
      var cluster := StringField(f, ClusterKey);
      var name := StringField(f, ContainerNameKey);
      var arn := StringField(f, TaskArnKey);
      var family := StringField(f, TaskDefinitionFamilyKey);
      var version := StringField(f, TaskDefinitionVersionKey);
      if cluster.Some? && name.Some? && arn.Some? && family.Some? && version.Some?
      then Some(ECSContainerLabels(cluster.value, name.value, arn.value, family.value, version.value))
      else None
    case _ => None
  }

  /** What the derived `Deserialize` of `ECSContainerMetadataV4` accepts:
      every renamed key present with a value of the field's type; keys it
      does not know are skipped. */
  function DecodeMetadata(j: Json): Option<ECSContainerMetadataV4>
  {
    match j
    case JObject(f) =>
      var dockerId := StringField(f, DockerIdKey);
      var image := StringField(f, ImageKey);
      var labels := if LabelsKey in f then DecodeLabels(f[LabelsKey]) else None;
      var limits := if LimitsKey in f then DecodeLimits(f[LimitsKey]) else None;
      if dockerId.Some? && image.Some? && labels.Some? && limits.Some?
      then Some(ECSContainerMetadataV4(dockerId.value, image.value, labels.value, limits.value))
      else None
    case _ => None
  }

  /** The wire form of a record under the rename table: the document the
      endpoint sends for it, with no extra keys. */
  function EncodeMetadata(m: ECSContainerMetadataV4): Json
  {
    JObject(map[
      DockerIdKey := JString(m.dockerId),
      ImageKey := JString(m.image),
      LabelsKey := JObject(map[
        ClusterKey := JString(m.labels.cluster),
        ContainerNameKey := JString(m.labels.containerName),
        TaskArnKey := JString(m.labels.taskArn),
        TaskDefinitionFamilyKey := JString(m.labels.taskDefinitionFamily),
        TaskDefinitionVersionKey := JString(m.labels.taskDefinitionVersion)]),
      LimitsKey := JObject(map[
        CpuKey := JInt(m.limits.cpu),
        MemoryKey := JInt(m.limits.mem)])])
  }

  /** `l` holds, at each label key, the matching label. */
  predicate CarriesLabels(l: map<string, Json>, labels: ECSContainerLabels)
  {
    ClusterKey in l && l[ClusterKey] == JString(labels.cluster)
    && ContainerNameKey in l && l[ContainerNameKey] == JString(labels.containerName)
    && TaskArnKey in l && l[TaskArnKey] == JString(labels.taskArn)
    && TaskDefinitionFamilyKey in l && l[TaskDefinitionFamilyKey] == JString(labels.taskDefinitionFamily)
    && TaskDefinitionVersionKey in l && l[TaskDefinitionVersionKey] == JString(labels.taskDefinitionVersion)
  }

  /** `n` holds, at each limit key, the matching limit. */
  predicate CarriesLimits(n: map<string, Json>, limits: ECSContainerLimits)
  {
    CpuKey in n && n[CpuKey] == JInt(limits.cpu)
    && MemoryKey in n && n[MemoryKey] == JInt(limits.mem)
  }

  /** `j` carries `m`: at every key of the rename table it holds the wire
      form of the matching field. Other keys are unconstrained. */
  predicate Carries(j: Json, m: ECSContainerMetadataV4)
  {
    j.JObject? && MetadataKeys <= j.fields.Keys
    && j.fields[DockerIdKey] == JString(m.dockerId)
    && j.fields[ImageKey] == JString(m.image)
    && j.fields[LabelsKey].JObject? && CarriesLabels(j.fields[LabelsKey].fields, m.labels)
    && j.fields[LimitsKey].JObject? && CarriesLimits(j.fields[LimitsKey].fields, m.limits)
  }

  /** Decoding succeeds with `m` exactly when the document carries `m`. */
  lemma DecodeExactlyCarried(j: Json, m: ECSContainerMetadataV4)
    ensures DecodeMetadata(j) == Some(m) <==> Carries(j, m)
  {
  }

  /** Decoding the wire form of a record gives the record back. */
  lemma DecodeEncode(m: ECSContainerMetadataV4)
    ensures DecodeMetadata(EncodeMetadata(m)) == Some(m)
  {
  }

  /** A document without one of the top-level keys is refused, whatever
      else it holds: no record with a default field is ever built. */
  lemma MissingKeyRefused(fields: map<string, Json>, key: string)
    requires key in MetadataKeys && key !in fields
    ensures DecodeMetadata(JObject(fields)) == None
  {
  }

  /** Keys outside the rename table are skipped. */
  lemma UnknownKeyIgnored(fields: map<string, Json>, key: string, v: Json)
    requires key !in MetadataKeys
    ensures DecodeMetadata(JObject(fields[key := v])) == DecodeMetadata(JObject(fields))
  {
  }

  /** The limits decode exactly when both are integers in 0..65535; a
      memory limit of 0 is an ordinary value. */
  lemma DecodeLimitsRange(fields: map<string, Json>, cpu: int, mem: int)
    requires CpuKey in fields && fields[CpuKey] == JInt(cpu)
    requires MemoryKey in fields && fields[MemoryKey] == JInt(mem)
    ensures DecodeLimits(JObject(fields)).Some? <==> 0 <= cpu <= 65535 && 0 <= mem <= 65535
    ensures 0 <= cpu <= 65535 && mem == 0 ==> DecodeLimits(JObject(fields)) == Some(ECSContainerLimits(cpu, 0))
  {
  }

  // --------------------------------------------------------------- accessors

  /** `ECSMetadata`: the immutable snapshot handed out by `init`. */
  datatype ECSMetadata = ECSMetadata(metadata: ECSContainerMetadataV4)
  {
    function TaskArn(): string { metadata.labels.taskArn }
    function TaskId(): Option<string> { TaskIdOf(metadata.labels.taskArn) }
    function Cluster(): string { metadata.labels.cluster }
    function Limits(): ECSContainerLimits { metadata.limits }
    function DockerId(): string { metadata.dockerId }
    function Image(): string { metadata.image }
    function TaskDefinitionFamily(): string { metadata.labels.taskDefinitionFamily }
    /** Reads the `task-definition-version` label. */
    function TaskDefinitionRevision(): string { metadata.labels.taskDefinitionVersion }
    function ContainerName(): string { metadata.labels.containerName }
  }

  /** Every accessor of a snapshot decoded from `j` reads back exactly the
      value `j` holds at that accessor's wire key. */
  lemma AccessorsReadWire(j: Json, md: ECSMetadata)
    requires DecodeMetadata(j) == Some(md.metadata)
    ensures j.JObject? && MetadataKeys <= j.fields.Keys
    ensures j.fields[DockerIdKey] == JString(md.DockerId())
    ensures j.fields[ImageKey] == JString(md.Image())
    ensures j.fields[LabelsKey].JObject? && j.fields[LimitsKey].JObject?
    ensures var l := j.fields[LabelsKey].fields;
      ClusterKey in l && l[ClusterKey] == JString(md.Cluster())
      && ContainerNameKey in l && l[ContainerNameKey] == JString(md.ContainerName())
      && TaskArnKey in l && l[TaskArnKey] == JString(md.TaskArn())
      && TaskDefinitionFamilyKey in l && l[TaskDefinitionFamilyKey] == JString(md.TaskDefinitionFamily())
      && TaskDefinitionVersionKey in l && l[TaskDefinitionVersionKey] == JString(md.TaskDefinitionRevision())
    ensures var n := j.fields[LimitsKey].fields;
      CpuKey in n && n[CpuKey] == JInt(md.Limits().cpu)
      && MemoryKey in n && n[MemoryKey] == JInt(md.Limits().mem)
  {
  }

  // ----------------------------------------------------------------- task id

  /** `task_arn.split('/').last()`. */
  function TaskIdOf(arn: string): (id: Option<string>)
    ensures id.Some? && '/' !in id.value
  {
    Last(Split(arn, '/'))
  }

  /** The task id is exactly the text after the last `/` of the ARN (all of
      it when there is none). */
  lemma {:induction false} TaskIdIsTail(arn: string, t: string)
    ensures TaskIdOf(arn) == Some(t) <==> IsTailAfterLast(arn, '/', t)
  {
    LastPieceIsTail(arn, '/');
    if IsTailAfterLast(arn, '/', t) {
      TailAfterLastUnique(arn, '/', t, TaskIdOf(arn).value);
    }
  }

  /** An ARN without `/` is its own task id. */
  lemma TaskIdWithoutSlash(arn: string)
    requires '/' !in arn
    ensures TaskIdOf(arn) == Some(arn)
  {
    TaskIdIsTail(arn, arn);
  }

  /** An ARN ending in `/` has the empty task id. */
  lemma TaskIdTrailingSlash(arn: string)
    requires |arn| > 0 && arn[|arn| - 1] == '/'
    ensures TaskIdOf(arn) == Some("")
  {
    TaskIdIsTail(arn, "");
  }

  /** Whatever precedes the last `/`, the id is the slash-free text after it. */
  lemma TaskIdAfterSlash(prefix: string, id: string)
    requires '/' !in id
    ensures TaskIdOf(prefix + "/" + id) == Some(id)
  {
    var arn := prefix + "/" + id;
    assert arn[|arn| - |id|..] == id;
    TaskIdIsTail(arn, id);
  }

  /** The id of a task ARN in the endpoint's usual shape, given as the text
      up to its last `/` and the id after it. */
  lemma TaskIdOfSampleArn(prefix: string, id: string)
    requires prefix == "arn:aws:ecs:us-east-1:939885537497:task/production"
    requires id == "021447970bce4bd58069f1925cd87bc0"
    ensures TaskIdOf(prefix + "/" + id) == Some("021447970bce4bd58069f1925cd87bc0")
  {
    TaskIdAfterSlash(prefix, id);
  }

  // -------------------------------------------------------------------- init

  /** The body of a response, as `Response::json` sees it: not readable as
      JSON text at all, or a JSON document. */
  datatype Body = Malformed | Document(json: Json)

  /** The outcome of `reqwest::get(url).await`. */
  datatype Outcome = Failed(detail: string) | Received(status: StatusCode, body: Body)

  /** `error_for_status` fails on client and server errors (4xx and 5xx). */
  predicate IsErrorStatus(status: StatusCode)
  {
    400 <= status <= 599
  }

  /** `ECSMetadata::init`: read the environment variable (`env`), fetch its
      URL (`get`), reject error statuses, decode the body. Each step
      short-circuits with its own error. */
  function Init(env: Option<string>, get: string -> Outcome): (r: Result<ECSMetadata, ECSMetadataError>)
    ensures r.Ok? <==> env.Some? && get(env.value).Received?
                       && !IsErrorStatus(get(env.value).status)
                       && get(env.value).body.Document?
                       && DecodeMetadata(get(env.value).body.json).Some?
    ensures r.Ok? ==> Carries(get(env.value).body.json, r.value.metadata)
  {
    match env
    case None => Err(EnvVarNotSet(MetadataEnvVar))
    case Some(url) =>
      match get(url)
      case Failed(detail) => Err(HttpError(RequestFailed(detail)))
      case Received(status, body) =>
        if IsErrorStatus(status) then Err(HttpError(StatusFailed(status)))
        else
          match body
          case Malformed => Err(HttpError(DecodeFailed))
          case Document(j) =>
            match DecodeMetadata(j)
            case None => Err(HttpError(DecodeFailed))
            case Some(m) => Ok(ECSMetadata(m))
  }

  /** Without the variable, `init` fails naming it and never issues a request. */
  lemma InitWithoutEnv(get1: string -> Outcome, get2: string -> Outcome)
    ensures Init(None, get1) == Err(EnvVarNotSet("ECS_CONTAINER_METADATA_URI_V4"))
    ensures Init(None, get1) == Init(None, get2)
  {
  }

  /** Only the outcome of fetching the configured URL matters. */
  lemma InitFetchesOnlyConfiguredUrl(url: string, get1: string -> Outcome, get2: string -> Outcome)
    requires get1(url) == get2(url)
    ensures Init(Some(url), get1) == Init(Some(url), get2)
  {
  }

  /** A transport failure surfaces as an `HttpError` carrying it. */
  lemma InitTransportFailure(url: string, get: string -> Outcome)
    requires get(url).Failed?
    ensures Init(Some(url), get) == Err(HttpError(RequestFailed(get(url).detail)))
  {
  }

  /** An error status yields `HttpError` whatever the body: it is never read. */
  lemma InitErrorStatus(url: string, get: string -> Outcome, status: StatusCode, body1: Body, body2: Body)
    requires get(url) == Received(status, body1) && IsErrorStatus(status)
    ensures Init(Some(url), get) == Err(HttpError(StatusFailed(status)))
    ensures Init(Some(url), get) == Init(Some(url), _ => Received(status, body2))
  {
  }

  /** A body that does not decode yields `HttpError`, never a partial record. */
  lemma InitUndecodableBody(url: string, get: string -> Outcome)
    requires get(url).Received? && !IsErrorStatus(get(url).status)
    requires get(url).body.Malformed? || DecodeMetadata(get(url).body.json).None?
    ensures Init(Some(url), get) == Err(HttpError(DecodeFailed))
  {
  }

  /** `FetchError` is never produced. */
  lemma InitNeverFetchError(env: Option<string>, get: string -> Outcome)
    ensures Init(env, get) != Err(FetchError)
  {
  }

  /** A success status with a document carrying `m` yields exactly `m`. */
  lemma InitSuccess(url: string, get: string -> Outcome, status: StatusCode, j: Json, m: ECSContainerMetadataV4)
    requires get(url) == Received(status, Document(j)) && 200 <= status <= 299
    requires Carries(j, m)
    ensures Init(Some(url), get) == Ok(ECSMetadata(m))
  {
  }

  /** A full response in the endpoint's documented shape, memory limit 0,
      for the task ARN given. */
  function SampleDocument(taskArn: string): Json
  {
    JObject(map[
      DockerIdKey := JString("abc123"),
      ImageKey := JString("repo:tag"),
      LabelsKey := JObject(map[
        ClusterKey := JString("production"),
        ContainerNameKey := JString("streamer"),
        TaskArnKey := JString(taskArn),
        TaskDefinitionFamilyKey := JString("streamer"),
        TaskDefinitionVersionKey := JString("12")]),
      LimitsKey := JObject(map[CpuKey := JInt(2), MemoryKey := JInt(0)])])
  }

  /** What a caller reads from `init` on that response. */
  lemma InitSample(url: string, get: string -> Outcome, arnPrefix: string, id: string)
    requires arnPrefix == "arn:aws:ecs:us-east-1:939885537497:task/production" && id == "XYZ"
    requires get(url) == Received(200, Document(SampleDocument(arnPrefix + "/" + id)))
    ensures Init(Some(url), get).Ok?
    ensures var md := Init(Some(url), get).value;
      md.DockerId() == "abc123" && md.Image() == "repo:tag"
      && md.Cluster() == "production" && md.ContainerName() == "streamer"
      && md.TaskId() == Some("XYZ")
      && md.TaskDefinitionFamily() == "streamer" && md.TaskDefinitionRevision() == "12"
      && md.Limits().cpu == 2 && md.Limits().mem == 0
  {
    var arn := arnPrefix + "/" + id;
    var m := ECSContainerMetadataV4("abc123", "repo:tag",
      ECSContainerLabels("production", "streamer", arn, "streamer", "12"),
      ECSContainerLimits(2, 0));
    assert Carries(SampleDocument(arn), m);
    InitSuccess(url, get, 200, SampleDocument(arn), m);
    TaskIdAfterSlash(arnPrefix, id);
  }
}
