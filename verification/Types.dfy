/** The API objects, as far as the two controllers read or write them. */
module Types {
  import opened Flatten

  datatype Option<+T> = None | Some(value: T)

  // A namespaced name.
  datatype NN = NN(ns: string, name: string)

  // Nothing changed under this name.
  ghost predicate SameIn<T>(before: map<NN, T>, after: map<NN, T>, x: NN) {
    (x in after <==> x in before) && (x in after ==> after[x] == before[x])
  }

  // `WorkflowPhase` is a string; `Other` stands for every string without a constant of its own.
  datatype Phase = Unknown | Pending | Running | Succeeded | Failed | Error | Other(text: string)
  {
    predicate Completed() { Succeeded? || Failed? || Error? }
    predicate InProgress() { Pending? || Running? }
    // The two phases that the controllers themselves assign.
    predicate Assigned() { Unknown? || Pending? }
  }

  // The first sixteen hexadecimal digits of a SHA-256 sum; only the length matters here.
  type Sha = s: string | |s| == 16 witness "0000000000000000"

  datatype Param = Param(name: string, value: string)

  datatype Artifact = Artifact(typ: string, srcRef: string, dstRef: string, raw: string)
  datatype OrderSpec = OrderSpec(defaultSrc: string, defaultDst: string, artifacts: seq<Artifact>)
  datatype Entry = Entry(index: int, phase: Phase, message: string)
  type Status = map<Sha, Entry>

  datatype AwSpec = AwSpec(typ: string, params: seq<Param>, srcSecret: string, dstSecret: string)

  datatype Endpoint = Endpoint(name: string, generation: int, typ: string, remoteURL: string, secretRef: string)
  datatype Secret = Secret(name: string, generation: int)
  datatype ArtifactType = ArtifactType(params: seq<Param>, template: string)

  datatype VolumeSource = EmptyDir | FromSecret(secret: string)
  datatype Volume = Volume(name: string, source: VolumeSource)
  datatype WfSpec = WfSpec(template: string, volumes: seq<Volume>, params: seq<Param>)

  // `desiredAW`: an artifact together with everything that was fetched for it.
  datatype Daw = Daw(artifact: Artifact, src: Endpoint, dst: Endpoint, srcSecret: Secret, dstSecret: Secret)

  // The tuple that is hashed for idempotency.
  datatype HashInput = HashInput(
    ns: string, typ: string, raw: string,
    src: string, srcGeneration: int, dst: string, dstGeneration: int,
    srcSecret: string, srcSecretGeneration: int, dstSecret: string, dstSecretGeneration: int)

  // The library functions that stay abstract: hashing, JSON decoding (None: malformed) and `%v` formatting.
  datatype Codec = Codec(
    hash: HashInput -> Sha,
    parse: string -> Option<map<string, Json>>,
    render: Json -> string)

  function HashOf(codec: Codec, ns: string, d: Daw): Sha {
    codec.hash(InputOf(ns, d))
  }

  // The key tells apart everything that can make a difference, and nothing else.
  lemma SameKeyIff(codec: Codec, ns: string, d: Daw, ms: string, e: Daw)
    requires forall x, y :: codec.hash(x) == codec.hash(y) ==> x == y
    ensures HashOf(codec, ns, d) == HashOf(codec, ms, e) <==>
            && ns == ms && d.artifact.typ == e.artifact.typ && d.artifact.raw == e.artifact.raw
            && d.src.name == e.src.name && d.src.generation == e.src.generation
            && d.dst.name == e.dst.name && d.dst.generation == e.dst.generation
            && d.srcSecret.name == e.srcSecret.name && d.srcSecret.generation == e.srcSecret.generation
            && d.dstSecret.name == e.dstSecret.name && d.dstSecret.generation == e.dstSecret.generation
  {
  }

  function InputOf(ns: string, d: Daw): HashInput {
    HashInput(ns, d.artifact.typ, d.artifact.raw, d.src.name, d.src.generation, d.dst.name, d.dst.generation,
              d.srcSecret.name, d.srcSecret.generation, d.dstSecret.name, d.dstSecret.generation)
  }

  // ---------------------------------------------------------------------------------------------------
  // Names of ArtifactWorkflows
  // ---------------------------------------------------------------------------------------------------

  function AwName(order: NN, sha: Sha): NN {
    NN(order.ns, order.name + "-" + sha)
  }

  // Keys have a fixed length, so a name determines the order and the key even when names contain hyphens.
  lemma AwNameInjective(o: NN, s: Sha, p: NN, t: Sha)
    requires AwName(o, s) == AwName(p, t)
    ensures o == p && s == t
  {
    var n := AwName(o, s).name;
    assert |o.name| == |n| - 17 == |p.name|;
    assert o.name == n[..|o.name|] && p.name == n[..|p.name|];
    assert s == n[|n| - 16..] && t == n[|n| - 16..];
  }

  // The form of a name: the namespace of the Order, its name, a hyphen, the key.
  lemma AwNameParts(o: NN, s: Sha)
    ensures var x := AwName(o, s);
            && x.ns == o.ns && |x.name| == |o.name| + 17
            && x.name[..|o.name|] == o.name && x.name[|o.name|] == '-' && x.name[|o.name| + 1..] == s
  {
  }
}
