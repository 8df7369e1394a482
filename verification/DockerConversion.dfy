/** make_docker_archive: verified OCI content written as a Docker-legacy archive. */
module DockerConversion {
  import opened Base
  import opened CanonicalJson
  import opened ImageArchive
  import opened PortableParser
  import opened OciSubset
  import BC = BoundedCapture

  const MAX_DOCKER_ARCHIVE_BYTES := MAX_EXPANDED_LAYER_BYTES + 1048576
  const INDEX_READ := 65537

  function Take(data: bytes, n: nat): bytes {
    if |data| <= n then data else data[..n]
  }

  function Pins(configDigest: string, diffIds: seq<string>, tag: string): Expected {
    Expected(configDigest, "linux", "amd64", diffIds, Some(tag))
  }

  /** f"layers/{index:02d}/layer.tar" */
  function LayerName(i: nat): string {
    "layers/" + ((if i < 10 then "0" else "") + NatText(i)) + "/layer.tar"
  }

  function ConfigName(configDigest: string): string
    requires |configDigest| >= 7
  {
    configDigest[7..] + ".json"
  }

  function LegacyManifest(configDigest: string, tag: string, layers: nat): Json
    requires |configDigest| >= 7
  {
    Arr([Obj([Pair("Config", Str(ConfigName(configDigest))), Pair("RepoTags", TextArray([tag])),
              Pair("Layers", Arr(seq(layers, i requires 0 <= i < layers => Str(LayerName(i)))))])])
  }

  function LayerFiles(layers: seq<bytes>): seq<Pair<bytes>> {
    seq(|layers|, i requires 0 <= i < |layers| => Pair(LayerName(i), layers[i]))
  }

  /** The files of the converted archive, before they are sorted by name. */
  function DockerFiles(c: Codec, image: Image, configDigest: string, tag: string): seq<Pair<bytes>>
    requires |configDigest| >= 7
  {
    [Pair("manifest.json", c.dumps(LegacyManifest(configDigest, tag, |image.layers|))),
     Pair(ConfigName(configDigest), image.config)] + LayerFiles(image.layers)
  }

  function DockerBytes(c: Codec, image: Image, configDigest: string, tag: string): bytes
    requires |configDigest| >= 7
  {
    c.tar(SortByKey(DockerFiles(c, image, configDigest, tag)))
  }

  /** The chain of the extracted archive as the converter reads it. */
  function SourceChain(c: Codec, es: seq<Entry>): Option<Resolved> {
    var raw := Read(es, "index.json", MAX_ARCHIVE_BYTES);
    if raw.Some? then Resolve(c, es, Take(raw.value, INDEX_READ), WIDE) else None
  }

  function SourceImage(c: Codec, es: seq<Entry>): Option<Image> {
    var r := SourceChain(c, es);
    if r.Some? then OciImage(c, es, r.value, MAX_ARCHIVE_BYTES) else None
  }

  /** The extracted content carries the pinned configuration and layers, within the budget. */
  predicate ContentPinned(c: Codec, es: seq<Entry>, configDigest: string, diffIds: seq<string>) {
    SourceImage(c, es).Some? &&
    At(At(SourceChain(c, es).value.manifest, "config").value, "digest") == Some(Str(configDigest)) &&
    ConfigOk(c.loads(SourceImage(c, es).value.config), Pins(configDigest, diffIds, "")) &&
    DiffIdsOk(c, SourceImage(c, es).value.layers, diffIds) &&
    Total(SourceImage(c, es).value.layers) <= MAX_EXPANDED_LAYER_BYTES
  }

  /** Everything before the self-check holds. */
  predicate Convertible(c: Codec, archive: bytes, configDigest: string, diffIds: seq<string>) {
    SubsetOk(c, archive) && c.untar(SubsetBytes(c, archive)).Some? &&
    var es := c.untar(SubsetBytes(c, archive)).value;
    DistinctNames(es) && ContentPinned(c, es, configDigest, diffIds)
  }

  lemma PinnedDigest(c: Codec, es: seq<Entry>, configDigest: string, diffIds: seq<string>)
    requires ContentPinned(c, es, configDigest, diffIds)
    ensures IsDigest(configDigest)
  {
  }

  // ---------------------------------------------------------------------------
  // The converter

  /** _expand_layer: gunzip in chunks. `chunks` is how much each read returns, at least one byte until the end.
      Every read asks for at least a byte, and at most one byte more than what remains is ever held. */
  method ExpandLayer(c: Codec, raw: bytes, mediaType: Option<Json>, remaining: nat, chunks: nat -> nat)
    returns (r: Option<bytes>, ghost calls: seq<BC.Call>)
    ensures BC.Modest(calls, remaining)
    ensures Expand(c, raw, mediaType).Some? && mediaType != Some(Str(TAR_TYPE)) ==> calls != []
    ensures r.Some? <==> Expand(c, raw, mediaType).Some? && |Expand(c, raw, mediaType).value| <= remaining
    ensures r.Some? ==> r == Expand(c, raw, mediaType)
  {
    calls := [];
    if mediaType == Some(Str(TAR_TYPE)) {
      return if |raw| > remaining then None else Some(raw), calls;
    }
    if mediaType.None? || !mediaType.value.Str? || mediaType.value.s !in GZIP_TYPES { return None, calls; }
    var stream := c.gunzip(raw);
    if stream.None? { return None, calls; }
    var expanded: bytes := [];
    var turn := 0;
    while true
      invariant |expanded| <= |stream.value| && expanded == stream.value[..|expanded|]
      invariant |expanded| <= remaining && BC.Modest(calls, remaining)
      decreases |stream.value| - |expanded|
    {
      var request := BC.Min(1048576, remaining + 1 - |expanded|);
      var left := |stream.value| - |expanded|;
      var most := BC.Min(left, request);
      var got := if 1 <= chunks(turn) <= most then chunks(turn) else most;
      calls := calls + [BC.Call(request, |expanded| + got)];
      if got == 0 { break; }
      expanded := stream.value[..|expanded| + got];
      turn := turn + 1;
      if |expanded| > remaining { return None, calls; }
    }
    assert expanded == stream.value;
    return Some(expanded), calls;
  }

  /** The layer loop: every layer's expansion under one shared budget, with its DiffID checked. */
  method ExpandLayers(c: Codec, es: seq<Entry>, layers: seq<Json>, diffIds: seq<string>, chunks: nat -> nat)
    returns (r: Option<seq<bytes>>)
    requires |layers| == |diffIds|
    ensures r.Some? <==>
      AllSome(OciContents(c, es, layers, MAX_ARCHIVE_BYTES)) &&
      DiffIdsOk(c, Values(OciContents(c, es, layers, MAX_ARCHIVE_BYTES)), diffIds) &&
      Total(Values(OciContents(c, es, layers, MAX_ARCHIVE_BYTES))) <= MAX_EXPANDED_LAYER_BYTES
    ensures r.Some? ==> r.value == Values(OciContents(c, es, layers, MAX_ARCHIVE_BYTES))
  {
    hide Blob, Expand, At;
    ghost var contents := OciContents(c, es, layers, MAX_ARCHIVE_BYTES);
    var done: seq<bytes> := [];
    var totalExpanded := 0;
    for i := 0 to |layers|
      invariant |done| == i && totalExpanded == Total(done) <= MAX_EXPANDED_LAYER_BYTES
      invariant forall k | 0 <= k < i :: contents[k] == Some(done[k]) && c.digest(done[k]) == diffIds[k]
    {
      var raw := Blob(c, es, layers[i], MAX_ARCHIVE_BYTES);
      if raw.None? { assert contents[i].None?; return None; }
      var layer, _ := ExpandLayer(c, raw.value, At(layers[i], "mediaType"), MAX_EXPANDED_LAYER_BYTES - totalExpanded,
                               chunks);
      if layer.None? {
        if AllSome(contents) {
          assert Values(contents)[..i + 1] == done + [contents[i].value];
          assert (done + [contents[i].value])[..i] == done;
          TotalPrefix(Values(contents), i + 1);
        }
        return None;
      }
      assert (done + [layer.value])[..i] == done;
      totalExpanded := totalExpanded + |layer.value|;
      if c.digest(layer.value) != diffIds[i] { return None; }
      done := done + [layer.value];
    }
    assert done == Values(contents);
    return Some(done);
  }

  /** The links of the extracted archive down to its layers. */
  method ReadSource(c: Codec, es: seq<Entry>, configDigest: string, diffIds: seq<string>, chunks: nat -> nat)
    returns (r: Result<Image, string>)
    requires DistinctNames(es)
    ensures r.Ok? <==> ContentPinned(c, es, configDigest, diffIds)
    ensures r.Ok? ==> Some(r.value) == SourceImage(c, es)
  {
    var indexRaw := Read(es, "index.json", MAX_ARCHIVE_BYTES);
    if indexRaw.None? { return Err("archive-members"); }
    var d := IndexDescriptor(c, Take(indexRaw.value, INDEX_READ));
    if d.None? { return Err("oci-index-header"); }
    var m := ManifestOf(c, es, d.value, MAX_ARCHIVE_BYTES);
    if m.None? { return Err("oci-manifest"); }
    var config := At(m.value.1, "config");
    if config.None? { return Err("oci-index-descriptor"); }
    var configRaw := Blob(c, es, config.value, MAX_ARCHIVE_BYTES);
    if configRaw.None? { return Err("oci-index-descriptor"); }
    if At(config.value, "digest") != Some(Str(configDigest)) { return Err("daemon-config-digest-mismatch"); }
    var doc := c.loads(configRaw.value);
    if doc.None? || !doc.value.Obj? { return Err("image-config"); }
    if !PlatformOk(doc.value, Pins(configDigest, diffIds, "")) { return Err("daemon-platform-mismatch"); }
    if !RootfsOk(doc) { return Err("image-config"); }
    if !ConfigOk(doc, Pins(configDigest, diffIds, "")) { return Err("daemon-diff-id-mismatch"); }
    var layers := At(m.value.1, "layers");
    if layers.None? || !layers.value.Arr? || |layers.value.items| != |diffIds| { return Err("oci-layers"); }
    var expanded := ExpandLayers(c, es, layers.value.items, diffIds, chunks);
    SourceUnfolds(c, es, d.value, m.value, layers.value.items);
    if expanded.None? { return Err("oci-layers"); }
    return Ok(Image(configRaw.value, expanded.value));
  }

  lemma SourceUnfolds(c: Codec, es: seq<Entry>, d: Json, m: (bytes, Json), layers: seq<Json>)
    requires Read(es, "index.json", MAX_ARCHIVE_BYTES).Some?
    requires IndexDescriptor(c, Take(Read(es, "index.json", MAX_ARCHIVE_BYTES).value, INDEX_READ)) == Some(d)
    requires ManifestOf(c, es, d, MAX_ARCHIVE_BYTES) == Some(m)
    requires At(m.1, "config").Some? && Blob(c, es, At(m.1, "config").value, MAX_ARCHIVE_BYTES).Some?
    requires At(m.1, "layers") == Some(Arr(layers))
    ensures SourceImage(c, es).Some? <==> AllSome(OciContents(c, es, layers, MAX_ARCHIVE_BYTES))
    ensures AllSome(OciContents(c, es, layers, MAX_ARCHIVE_BYTES)) ==>
      SourceChain(c, es).Some? && SourceChain(c, es).value.manifest == m.1 &&
      SourceImage(c, es) == Some(Image(Blob(c, es, At(m.1, "config").value, MAX_ARCHIVE_BYTES).value,
                                       Values(OciContents(c, es, layers, MAX_ARCHIVE_BYTES))))
  {
    var contents := OciContents(c, es, layers, MAX_ARCHIVE_BYTES);
    if AllSome(contents) {
      forall i | 0 <= i < |layers| ensures Blob(c, es, layers[i], MAX_ARCHIVE_BYTES).Some? { assert contents[i].Some?; }
    }
  }

  /** The Docker-legacy archive of an image: manifest, configuration and layer files, by name. */
  method WriteDocker(c: Codec, image: Image, configDigest: string, tag: string) returns (candidate: bytes)
    requires |configDigest| >= 7
    ensures candidate == DockerBytes(c, image, configDigest, tag)
  {
    var layerNames, layerFiles := [], [];
    for i := 0 to |image.layers|
      invariant layerNames == seq(i, k requires 0 <= k < i => Str(LayerName(k)))
      invariant layerFiles == LayerFiles(image.layers[..i])
    {
      layerNames := layerNames + [Str(LayerName(i))];
      layerFiles := layerFiles + [Pair(LayerName(i), image.layers[i])];
    }
    assert image.layers[..|image.layers|] == image.layers;
    var manifest := Arr([Obj([Pair("Config", Str(ConfigName(configDigest))), Pair("RepoTags", TextArray([tag])),
                              Pair("Layers", Arr(layerNames))])]);
    assert manifest == LegacyManifest(configDigest, tag, |image.layers|);
    var files := [Pair("manifest.json", c.dumps(manifest)), Pair(ConfigName(configDigest), image.config)] + layerFiles;
    candidate := c.tar(SortByKey(files));
  }

  /** The image the converter works from, once everything before the self-check holds. */
  function ConvertedImage(c: Codec, archive: bytes): Image
    requires SubsetOk(c, archive) && c.untar(SubsetBytes(c, archive)).Some?
    requires SourceImage(c, c.untar(SubsetBytes(c, archive)).value).Some?
  {
    SourceImage(c, c.untar(SubsetBytes(c, archive)).value).value
  }

  /** The pinned content of the extracted archive. */
  method ReadSubset(c: Codec, archive: bytes, configDigest: string, diffIds: seq<string>, chunks: nat -> nat)
    returns (r: Result<Image, string>)
    requires DigestLaw(c)
    ensures r.Ok? <==> Convertible(c, archive, configDigest, diffIds)
    ensures r.Ok? ==> r.value == ConvertedImage(c, archive)
  {
    var subset := MakeOciSubset(c, archive);
    if subset.Err? { return Err(subset.error); }
    var listed := c.untar(subset.value);
    if listed.None? { return Err("archive-format"); }
    var es := listed.value;
    if exists i, j | 0 <= i < j < |es| :: es[i].name == es[j].name { return Err("archive-members"); }
    if Find(es, "index.json").None? { return Err("archive-members"); }
    r := ReadSource(c, es, configDigest, diffIds, chunks);
  }

  /** The self-check: the parser accepts the converted archive under the pins it was made for. */
  predicate SelfCheck(c: Codec, image: Image, configDigest: string, diffIds: seq<string>, tag: string)
    requires |configDigest| >= 7
  {
    Accepts(c, DockerBytes(c, image, configDigest, tag), Pins(configDigest, diffIds, tag),
            MAX_DOCKER_ARCHIVE_BYTES, MAX_EXPANDED_LAYER_BYTES)
  }

  /** make_docker_archive */
  method MakeDockerArchive(c: Codec, archive: bytes, configDigest: string, diffIds: seq<string>, tag: string,
                           chunks: nat -> nat)
    returns (r: Result<bytes, string>)
    requires DigestLaw(c)
    ensures Convertible(c, archive, configDigest, diffIds) ==> IsDigest(configDigest)
    ensures r.Ok? <==>
      Convertible(c, archive, configDigest, diffIds) &&
      SelfCheck(c, ConvertedImage(c, archive), configDigest, diffIds, tag)
    ensures r.Ok? ==> r.value == DockerBytes(c, ConvertedImage(c, archive), configDigest, tag)
  {
    var image := ReadSubset(c, archive, configDigest, diffIds, chunks);
    if image.Err? { return Err(image.error); }
    PinnedDigest(c, c.untar(SubsetBytes(c, archive)).value, configDigest, diffIds);
    var candidate := WriteDocker(c, image.value, configDigest, tag);
    if candidate == [] || |candidate| > MAX_DOCKER_ARCHIVE_BYTES { return Err("archive-format"); }
    var checked := ParsePortableArchive(c, candidate, Pins(configDigest, diffIds, tag),
                                        MAX_DOCKER_ARCHIVE_BYTES, MAX_EXPANDED_LAYER_BYTES);
    if checked.Err? { return Err(checked.error); }
    return Ok(candidate);
  }
}
