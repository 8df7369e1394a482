/** What the parser's acceptance tells a caller about the bytes in the archive. */
module ParserSoundness {
  import opened Base
  import opened CanonicalJson
  import opened ImageArchive
  import opened PortableParser

  /** Some regular member is the content a descriptor declares: its name, its size, its digest. */
  ghost predicate Verified(c: Codec, es: seq<Entry>, d: Json) {
    At(d, "digest").Some? && At(d, "digest").value.Str? && IsDigest(At(d, "digest").value.s) &&
    At(d, "size").Some? && At(d, "size").value.Num? &&
    exists i :: 0 <= i < |es| && es[i].kind == File && es[i].name == BlobName(At(d, "digest").value.s) &&
                |es[i].data| == At(d, "size").value.n && c.digest(es[i].data) == At(d, "digest").value.s
  }

  lemma BlobVerified(c: Codec, es: seq<Entry>, d: Json, limit: int)
    requires Blob(c, es, d, limit).Some?
    ensures Verified(c, es, d)
  {
    var name := BlobName(At(d, "digest").value.s);
    FindSound(es, name);
    var i :| 0 <= i < |es| && es[i] == Find(es, name).value;
  }

  /** Every link of an accepted archive's OCI chain verifies, and its end is what was expected. */
  lemma AcceptedChainVerified(c: Codec, archive: bytes, exp: Expected, maxArchive: int, maxExpanded: int)
    requires Accepts(c, archive, exp, maxArchive, maxExpanded) && HasIndex(c.untar(archive).value)
    ensures
      var es := c.untar(archive).value;
      OciChain(c, es, maxArchive).Some? && OciPart(c, es, maxArchive).Some? &&
      var r, image := OciChain(c, es, maxArchive).value, OciPart(c, es, maxArchive).value;
      Verified(c, es, r.descriptor) && Verified(c, es, At(r.manifest, "config").value) &&
      |r.layers| == |exp.diffIds| && (forall i :: 0 <= i < |r.layers| ==> Verified(c, es, r.layers[i])) &&
      c.digest(image.config) == exp.configDigest && ConfigOk(c.loads(image.config), exp) &&
      DiffIdsOk(c, image.layers, exp.diffIds) &&
      FactsOf(c, es, exp, maxArchive).manifestDigest == Some(c.digest(r.manifestRaw))
  {
    var es := c.untar(archive).value;
    var r := OciChain(c, es, maxArchive).value;
    BlobVerified(c, es, r.descriptor, 65536);
    BlobVerified(c, es, At(r.manifest, "config").value, 1048576);
    forall i | 0 <= i < |r.layers| ensures Verified(c, es, r.layers[i]) {
      BlobVerified(c, es, r.layers[i], maxArchive);
    }
  }

  /** Content that the hash does not confuse. */
  predicate Distinguished(c: Codec, x: bytes, y: bytes) {
    c.digest(x) == c.digest(y) ==> x == y
  }

  /** An accepted archive with both an OCI and a legacy copy denotes one image, and expands to at
      most the budget over the two copies together. */
  lemma CopiesAgree(c: Codec, archive: bytes, exp: Expected, maxArchive: int, maxExpanded: int)
    requires Accepts(c, archive, exp, maxArchive, maxExpanded)
    requires HasIndex(c.untar(archive).value) && HasLegacy(c.untar(archive).value)
    ensures
      var es := c.untar(archive).value;
      OciPart(c, es, maxArchive).Some? && LegacyImage(c, es, maxArchive).Some? &&
      var a, b := OciPart(c, es, maxArchive).value, LegacyImage(c, es, maxArchive).value;
      |a.layers| == |b.layers| && Total(a.layers) + Total(b.layers) <= maxExpanded &&
      ((Distinguished(c, a.config, b.config) &&
        (forall i | 0 <= i < |a.layers| :: Distinguished(c, a.layers[i], b.layers[i]))) ==> a == b)
  {
    var es := c.untar(archive).value;
    AcceptedChainVerified(c, archive, exp, maxArchive, maxExpanded);
    var a, b := OciPart(c, es, maxArchive).value, LegacyImage(c, es, maxArchive).value;
    if forall i | 0 <= i < |a.layers| :: Distinguished(c, a.layers[i], b.layers[i]) {
      assert forall i | 0 <= i < |a.layers| :: a.layers[i] == b.layers[i];
      assert a.layers == b.layers;
    }
  }
}
