/**
 The signing profile said outright: which image passes, and which code names the failure of one that does not, in
 terms of what the registry answers and what the documents hold.  Nothing here is used by the verification itself.
 */
module ProfileSpec {
  import opened Text
  import opened Dsse
  import opened Refs
  import opened Profile

  /** The names by which the profile knows its documents. */
  lemma KnownBy()
    ensures SIMPLE_SIGNING == "application/vnd.dev.cosign.simplesigning.v1+json" && COSIGN_SIGNATURE == "cosign container image signature"
    ensures SIGNATURE_ANNOTATION == "dev.cosignproject.cosign/signature"
    ensures DSSE_ENVELOPE == "application/vnd.dsse.envelope.v1+json" && IN_TOTO == "application/vnd.in-toto+json"
    ensures STATEMENT_TYPE == "https://in-toto.io/Statement/v0.1"
    ensures OCI_MANIFEST == "application/vnd.oci.image.manifest.v1+json"
    ensures DOCKER_MANIFEST == "application/vnd.docker.distribution.manifest.v2+json"
  {
  }

  // ---- The layers of a cosign tag ------------------------------------------------------------------

  /** The tag next to an image: its digest with "-" for the first ":", and a suffix. */
  ghost predicate NamesTag(tag: string, digest: string, suffix: string)
  {
    || (':' !in digest && tag == digest + "." + suffix)
    || exists kind, hex :: ':' !in kind && digest == kind + ":" + hex && tag == kind + "-" + hex + "." + suffix
  }

  /** The layers are the first sixteen at the tag; a tag that is not there has none. */
  ghost predicate ReadsLayers(job: Job, stage: Stage, suffix: string, layers: seq<Descriptor>)
  {
    exists tag :: NamesTag(tag, job.ref.digest, suffix) && AtTag(job, stage, tag, layers)
  }

  ghost predicate AtTag(job: Job, stage: Stage, tag: string, layers: seq<Descriptor>)
  {
    || (job.w.manifest(stage, job.ref, tag) == NotFound && layers == [])
    || exists m, im ::
         && job.w.manifest(stage, job.ref, tag) == Got(m) && job.c.imageManifest(m.body) == Some(im)
         && layers <= im.layers && |layers| <= 16 && (|layers| == 16 || layers == im.layers)
  }

  lemma NamesTagIff(tag: string, digest: string, suffix: string)
    ensures NamesTag(tag, digest, suffix) <==> tag == TagFor(digest, suffix)
  {
    var c := Cut(digest, ':');
    if c.found {
      assert digest == c.before + ":" + c.after;
    }
    forall kind: string, hex: string | ':' !in kind && digest == kind + ":" + hex
      ensures c == CutResult(kind, hex, true)
    {
      CutAt(kind, ':', hex);
    }
  }

  lemma ReadsLayersIff(job: Job, stage: Stage, suffix: string, layers: seq<Descriptor>)
    requires suffix == if stage == SignatureStage then "sig" else "att"
    ensures ReadsLayers(job, stage, suffix, layers) <==> Layers(job, stage) == Some(layers)
  {
    var tag := TagFor(job.ref.digest, suffix);
    forall other
      ensures NamesTag(other, job.ref.digest, suffix) <==> other == tag
    {
      NamesTagIff(other, job.ref.digest, suffix);
    }
    AtTagIff(job, stage, tag, layers);
  }

  lemma AtTagIff(job: Job, stage: Stage, tag: string, layers: seq<Descriptor>)
    requires tag == TagFor(job.ref.digest, if stage == SignatureStage then "sig" else "att")
    ensures AtTag(job, stage, tag, layers) <==> Layers(job, stage) == Some(layers)
  {
    var answer := job.w.manifest(stage, job.ref, tag);
    if answer.Got? && job.c.imageManifest(answer.value.body).Some? {
      var all := job.c.imageManifest(answer.value.body).value.layers;
      FirstSixteen(all, layers);
    }
  }

  lemma FirstSixteen<T>(all: seq<T>, part: seq<T>)
    ensures part <= all && |part| <= 16 && (|part| == 16 || part == all) <==> part == if |all| > 16 then all[..16] else all
  {
    if part <= all {
      assert part == all[..|part|];
      if |part| == |all| {
        assert part == all;
      }
    }
  }

  // ---- The signature -------------------------------------------------------------------------------

  /** The signature a layer is annotated with, decoded. */
  ghost predicate HasSignature(job: Job, l: Descriptor, sig: Bytes)
  {
    sig != [] && job.c.base64(if SIGNATURE_ANNOTATION in l.annotations then l.annotations[SIGNATURE_ANNOTATION] else "") == Some(sig)
  }

  /** Layer k is a simple signing of exactly this repository and digest, by a trusted key. */
  ghost predicate GoodSignature(job: Job, k: nat, l: Descriptor)
  {
    exists sig, payload, key ::
      && l.mediaType == SIMPLE_SIGNING && HasSignature(job, l, sig)
      && job.w.blob(SignatureStage, k, job.ref, l.digest) == Got(payload)
      && key in job.keys && job.c.ecdsa(key, job.c.sha256(payload), sig)
      && job.c.simpleSigning(payload)
         == Some(SimpleSigning(COSIGN_SIGNATURE, job.ref.digest, job.ref.registry + "/" + job.ref.repository))
  }

  /** Reading layer k ends the search: the context is over, or the registry fails on a signature. */
  ghost predicate SignatureEnds(job: Job, k: nat, l: Descriptor)
  {
    || job.w.ended(SignatureStage, k)
    || (l.mediaType == SIMPLE_SIGNING && (exists sig :: HasSignature(job, l, sig)) && job.w.blob(SignatureStage, k, job.ref, l.digest) == Failed)
  }

  ghost predicate SignaturePasses(job: Job)
  {
    exists layers, k: nat :: ReadsLayers(job, SignatureStage, "sig", layers) && SignedAt(job, layers, k)
  }

  /** Layer k is good and nothing ends the search up to it. */
  ghost predicate SignedAt(job: Job, layers: seq<Descriptor>, k: nat)
  {
    k < |layers| && GoodSignature(job, k, layers[k]) && forall j :: 0 <= j <= k ==> !SignatureEnds(job, j, layers[j])
  }

  ghost predicate SignatureDown(job: Job)
  {
    || (forall layers :: !ReadsLayers(job, SignatureStage, "sig", layers))
    || exists layers, k: nat :: ReadsLayers(job, SignatureStage, "sig", layers) && EndsAt(job, layers, k)
  }

  /** Layer k ends the search and none before it is good. */
  ghost predicate EndsAt(job: Job, layers: seq<Descriptor>, k: nat)
  {
    k < |layers| && SignatureEnds(job, k, layers[k]) && forall j :: 0 <= j < k ==> !GoodSignature(job, j, layers[j])
  }

  ghost predicate SignatureAnswers(job: Job, code: Code)
  {
    match code
    case Passed => SignaturePasses(job)
    case ProviderDown => SignatureDown(job)
    case Unsigned => !SignaturePasses(job) && !SignatureDown(job)
    case _ => false
  }

  lemma SignatureLayerMeans(job: Job, k: nat, l: Descriptor)
    ensures SignatureLayer(job, k, l) == Interrupted <==> SignatureEnds(job, k, l)
    ensures SignatureLayer(job, k, l) == Valid <==> GoodSignature(job, k, l) && !SignatureEnds(job, k, l)
  {
    var sig := job.c.base64(Annotation(l, SIGNATURE_ANNOTATION));
    assert sig.Some? && sig.value != [] ==> HasSignature(job, l, sig.value);
    GoodMeans(job, k, l);
  }

  lemma GoodMeans(job: Job, k: nat, l: Descriptor)
    ensures GoodSignature(job, k, l) <==>
            && l.mediaType == SIMPLE_SIGNING && Blob(job, SignatureStage, k, l).Got?
            && SignsImage(job, l, Blob(job, SignatureStage, k, l).value)
  {
    if l.mediaType == SIMPLE_SIGNING && Blob(job, SignatureStage, k, l).Got? && SignsImage(job, l, Blob(job, SignatureStage, k, l).value) {
      var payload, sig := Blob(job, SignatureStage, k, l).value, job.c.base64(Annotation(l, SIGNATURE_ANNOTATION)).value;
      var i :| 0 <= i < |job.keys| && job.c.ecdsa(job.keys[i], job.c.sha256(payload), sig);
      assert HasSignature(job, l, sig) && job.keys[i] in job.keys;
    }
  }

  /** The signature check passes exactly when one of the first sixteen layers is good and nothing ends the search up
      to it; it is "down" exactly when the tag cannot be read or something ends the search before; else the image is
      unsigned. */
  lemma SignatureIs(job: Job, code: Code)
    ensures SignatureResult(job) == Result(code, map[]) <==> SignatureAnswers(job, code)
  {
    forall layers
      ensures ReadsLayers(job, SignatureStage, "sig", layers) <==> Layers(job, SignatureStage) == Some(layers)
    {
      ReadsLayersIff(job, SignatureStage, "sig", layers);
    }
    if Layers(job, SignatureStage).Some? {
      SearchIs(job, Layers(job, SignatureStage).value);
    }
  }

  lemma SearchIs(job: Job, layers: seq<Descriptor>)
    ensures var k := Decisive(job, layers, 0);
            && ((exists m: nat :: SignedAt(job, layers, m)) <==> k < |layers| && SignatureLayer(job, k, layers[k]) == Valid)
            && ((exists m: nat :: EndsAt(job, layers, m)) <==> k < |layers| && SignatureLayer(job, k, layers[k]) == Interrupted)
  {
    var k := Decisive(job, layers, 0);
    forall j | 0 <= j < |layers|
      ensures SignatureLayer(job, j, layers[j]) == Interrupted <==> SignatureEnds(job, j, layers[j])
      ensures SignatureLayer(job, j, layers[j]) == Valid <==> GoodSignature(job, j, layers[j]) && !SignatureEnds(job, j, layers[j])
    {
      SignatureLayerMeans(job, j, layers[j]);
    }
    if m: nat :| SignedAt(job, layers, m) {
      assert SignatureLayer(job, m, layers[m]) == Valid && !(m < k);
    }
    if m: nat :| EndsAt(job, layers, m) {
      assert SignatureLayer(job, m, layers[m]) == Interrupted && !(m < k);
    }
    if k < |layers| && SignatureLayer(job, k, layers[k]) == Valid {
      assert SignedAt(job, layers, k);
    }
    if k < |layers| && SignatureLayer(job, k, layers[k]) == Interrupted {
      assert EndsAt(job, layers, k);
    }
  }

  // ---- The platform --------------------------------------------------------------------------------

  /** "sha256:" and 64 digits, in lower case. */
  ghost predicate IsDigest(d: string)
  {
    exists hex :: d == "sha256:" + hex && |hex| == 64 && forall i :: 0 <= i < |hex| ==> hex[i] in "0123456789abcdef"
  }

  /** The digest names a manifest of one image, with this configuration. */
  ghost predicate SingleImage(job: Job, configDigest: string)
  {
    exists m, im ::
      && job.w.manifest(PlatformStage, job.ref, job.ref.digest) == Got(m) && m.mediaType in {OCI_MANIFEST, DOCKER_MANIFEST}
      && job.c.imageManifest(m.body) == Some(im) && im.configDigest == configDigest && IsDigest(configDigest)
  }

  ghost predicate Configured(job: Job, raw: Bytes)
  {
    exists d :: SingleImage(job, d) && job.w.blob(PlatformStage, 0, job.ref, d) == Got(raw)
  }

  /** The manifest cannot be fetched, or the configuration it names. */
  ghost predicate PlatformDown(job: Job)
  {
    || !job.w.manifest(PlatformStage, job.ref, job.ref.digest).Got?
    || exists d :: SingleImage(job, d) && !job.w.blob(PlatformStage, 0, job.ref, d).Got?
  }

  ghost predicate PlatformAnswers(job: Job, code: Code)
  {
    match code
    case Passed => exists raw :: Configured(job, raw) && job.c.config(raw) == Some(Config("linux", "amd64"))
    case ProviderDown => PlatformDown(job)
    case IndexUnsupported => job.w.manifest(PlatformStage, job.ref, job.ref.digest).Got? && forall d :: !SingleImage(job, d)
    case NotLinux => exists raw :: Configured(job, raw) && forall arch :: job.c.config(raw) != Some(Config("linux", arch))
    case ArchUnsupported => exists raw, arch :: Configured(job, raw) && job.c.config(raw) == Some(Config("linux", arch)) && arch != "amd64"
    case _ => false
  }

  lemma IsDigestIff(d: string)
    ensures IsDigest(d) <==> ValidDigest(d)
  {
    if ValidDigest(d) {
      assert d == "sha256:" + d[7..];
      forall i | 0 <= i < |d[7..]|
        ensures d[7..][i] in "0123456789abcdef"
      {
        assert LowerHex(d[i + 7]);
        HexDigits(d[i + 7]);
      }
    }
    if hex :| d == "sha256:" + hex && |hex| == 64 && forall i :: 0 <= i < |hex| ==> hex[i] in "0123456789abcdef" {
      forall i | 7 <= i < |d|
        ensures LowerHex(d[i])
      {
        HexDigits(hex[i - 7]);
      }
    }
  }

  lemma HexDigits(c: char)
    ensures c in "0123456789abcdef" <==> LowerHex(c)
  {
    var digits := "0123456789abcdef";
    if '0' <= c <= '9' {
      assert digits[c as int - '0' as int] == c;
    }
    if 'a' <= c <= 'f' {
      assert digits[c as int - 'a' as int + 10] == c;
    }
  }

  /** The platform check passes exactly for a manifest of one linux/amd64 image, and each of its codes has exactly
      its own cause. */
  lemma PlatformIs(job: Job, code: Code)
    ensures PlatformResult(job) == Result(code, map[]) <==> PlatformAnswers(job, code)
  {
    var answer := job.w.manifest(PlatformStage, job.ref, job.ref.digest);
    SingleImageIff(job);
    if answer.Got? && job.c.imageManifest(answer.value.body).Some? {
      var d := job.c.imageManifest(answer.value.body).value.configDigest;
      PlatformOf(job, d, job.w.blob(PlatformStage, 0, job.ref, d), code);
    }
  }

  lemma SingleImageIff(job: Job)
    ensures var answer := job.w.manifest(PlatformStage, job.ref, job.ref.digest);
            forall d :: SingleImage(job, d) <==>
              && answer.Got? && (answer.value.mediaType == OCI_MANIFEST || answer.value.mediaType == DOCKER_MANIFEST)
              && job.c.imageManifest(answer.value.body).Some?
              && d == job.c.imageManifest(answer.value.body).value.configDigest && ValidDigest(d)
  {
    forall d: string
      ensures IsDigest(d) <==> ValidDigest(d)
    {
      IsDigestIff(d);
    }
  }

  lemma PlatformOf(job: Job, d: string, found: Fetch<Bytes>, code: Code)
    requires found == job.w.blob(PlatformStage, 0, job.ref, d)
    requires forall other :: SingleImage(job, other) ==> other == d
    ensures SingleImage(job, d) ==>
              (PlatformAnswers(job, code) <==>
                 code == if !found.Got? then ProviderDown
                         else if job.c.config(found.value).None? || job.c.config(found.value).value.os != "linux" then NotLinux
                         else if job.c.config(found.value).value.architecture != "amd64" then ArchUnsupported
                         else Passed)
  {
    if SingleImage(job, d) && found.Got? {
      assert Configured(job, found.value);
      var config := job.c.config(found.value);
      assert config.Some? && config.value.os == "linux" ==> config == Some(Config("linux", config.value.architecture));
    }
  }

  // ---- An attestation ------------------------------------------------------------------------------

  /** A letter is the same in both cases. */
  ghost predicate SameLetter(a: char, b: char)
  {
    || a == b
    || ('a' <= a <= 'z' && b as int == a as int - 32)
    || ('a' <= b <= 'z' && a as int == b as int - 32)
  }

  /** A subject is this digest, in either case. */
  ghost predicate NamesImage(job: Job, st: Statement)
  {
    exists subject, hex ::
      && subject in st.subjects && "sha256" in subject && DigestHex(job.ref.digest, hex)
      && |subject["sha256"]| == 64 == |hex| && forall i :: 0 <= i < 64 ==> SameLetter(subject["sha256"][i], hex[i])
  }

  ghost predicate DigestHex(digest: string, hex: string)
  {
    digest == "sha256:" + hex || (!("sha256:" <= digest) && hex == digest)
  }

  /** One of the first four signatures is by a trusted key over the encoding of type and payload. */
  ghost predicate SignedEnvelope(job: Job, env: Envelope, payload: Bytes)
  {
    exists i: nat, key, sig ::
      && i < |env.signatures| && i < 4 && key in job.keys && job.c.base64(env.signatures[i]) == Some(sig)
      && job.c.ecdsa(key, job.c.sha256(Pae(env.payloadType, payload)), sig)
  }

  /** The layer holds this statement, in this envelope with this payload. */
  ghost predicate Contains(job: Job, q: Query, k: nat, l: Descriptor, env: Envelope, payload: Bytes, st: Statement)
  {
    exists raw ::
      && l.mediaType == DSSE_ENVELOPE && job.w.blob(q.stage, k, job.ref, l.digest) == Got(raw)
      && job.c.envelope(raw) == Some(env) && job.c.base64(env.payload) == Some(payload) && job.c.statement(payload) == Some(st)
  }

  /** The layer attests p for this image: in-toto throughout, of the wanted type, signed and bound. */
  ghost predicate AttestsTo(job: Job, q: Query, k: nat, l: Descriptor, p: Json)
  {
    exists env, payload, st ::
      && Contains(job, q, k, l, env, payload, st) && env.payloadType == IN_TOTO && st.typ == STATEMENT_TYPE
      && st.predicateType == q.want && st.content == p && SignedEnvelope(job, env, payload) && NamesImage(job, st)
  }

  ghost predicate ValidPredicate(job: Job, q: Query, p: Json)
  {
    (q.stage == SbomStage ==> job.c.validSbom(job.ref, p)) && (q.stage != SbomStage ==> job.c.validMock(p))
  }

  /** Reading layer k ends the search: the context is over, or the registry fails on an envelope. */
  ghost predicate AttestationEnds(job: Job, q: Query, k: nat, l: Descriptor)
  {
    job.w.ended(q.stage, k) || (l.mediaType == DSSE_ENVELOPE && job.w.blob(q.stage, k, job.ref, l.digest) == Failed)
  }

  /** The layer is put forward as the wanted type: by its annotation, or by the statement it holds. */
  ghost predicate Claims(job: Job, q: Query, k: nat, l: Descriptor)
  {
    || (l.mediaType == DSSE_ENVELOPE && (if "predicateType" in l.annotations then l.annotations["predicateType"] else "") == q.want)
    || exists env, payload, st :: Contains(job, q, k, l, env, payload, st) && st.predicateType == q.want
  }

  ghost predicate GoodAttestation(job: Job, q: Query, k: nat, l: Descriptor, p: Json)
  {
    AttestsTo(job, q, k, l, p) && ValidPredicate(job, q, p)
  }

  /** Layer k is the first good one, with p, and nothing ends the search up to it. */
  ghost predicate AttestedAt(job: Job, q: Query, layers: seq<Descriptor>, k: nat, p: Json)
  {
    && k < |layers| && GoodAttestation(job, q, k, layers[k], p)
    && (forall j :: 0 <= j <= k ==> !AttestationEnds(job, q, j, layers[j]))
    && (forall j, other :: 0 <= j < k ==> !GoodAttestation(job, q, j, layers[j], other))
  }

  /** Layer k ends the search and none before it is good. */
  ghost predicate AttestationEndsAt(job: Job, q: Query, layers: seq<Descriptor>, k: nat)
  {
    && k < |layers| && AttestationEnds(job, q, k, layers[k])
    && (forall j, p :: 0 <= j < k ==> !GoodAttestation(job, q, j, layers[j], p))
  }

  ghost predicate AttestationAnswers(job: Job, q: Query, a: Attestation)
  {
    if exists layers :: ReadsLayers(job, q.stage, "att", layers) then
      exists layers :: ReadsLayers(job, q.stage, "att", layers) && AttestationOf(job, q, layers, a)
    else a == Attestation(None, ProviderDown)
  }

  /** What these layers answer. */
  ghost predicate AttestationOf(job: Job, q: Query, layers: seq<Descriptor>, a: Attestation)
  {
    if a.content.Some? then a.code == Passed && exists k: nat :: AttestedAt(job, q, layers, k, a.content.value)
    else (forall k: nat, p :: !AttestedAt(job, q, layers, k, p)) && a.code == FailureCode(job, q, layers)
  }

  ghost function FailureCode(job: Job, q: Query, layers: seq<Descriptor>): Code
  {
    if exists k: nat :: AttestationEndsAt(job, q, layers, k) then ProviderDown
    else if exists k: nat, p :: k < |layers| && AttestsTo(job, q, k, layers[k], p) then q.invalid
    else if exists k: nat :: k < |layers| && Claims(job, q, k, layers[k]) then AttestationInvalid
    else q.missing
  }

  lemma SameLetterIff(a: char, b: char)
    ensures SameLetter(a, b) <==> Fold(a) == Fold(b)
  {
  }

  lemma NamesImageIff(job: Job, st: Statement)
    ensures NamesImage(job, st) <==> Bound(st, WantHex(job.ref))
  {
    var hex := WantHex(job.ref);
    forall other
      ensures DigestHex(job.ref.digest, other) <==> other == hex
    {
      DigestHexIff(job.ref, other);
    }
    forall subject: map<string, string> | "sha256" in subject && |subject["sha256"]| == 64
      ensures NamesDigest(subject, hex) <==> |hex| == 64 && forall i :: 0 <= i < 64 ==> SameLetter(subject["sha256"][i], hex[i])
    {
      FoldsAre(subject["sha256"], hex);
    }
    if Bound(st, hex) {
      var k :| 0 <= k < |st.subjects| && NamesDigest(st.subjects[k], hex);
      assert st.subjects[k] in st.subjects && DigestHex(job.ref.digest, hex);
    }
  }

  lemma DigestHexIff(ref: Ref, hex: string)
    ensures DigestHex(ref.digest, hex) <==> hex == WantHex(ref)
  {
    if "sha256:" <= ref.digest {
      assert ref.digest == "sha256:" + ref.digest[7..];
    }
  }

  lemma FoldsAre(a: string, b: string)
    ensures EqualFold(a, b) <==> |a| == |b| && forall i :: 0 <= i < |a| ==> SameLetter(a[i], b[i])
  {
    forall i | 0 <= i < |a| && i < |b|
      ensures SameLetter(a[i], b[i]) <==> Fold(a[i]) == Fold(b[i])
    {
      SameLetterIff(a[i], b[i]);
    }
  }

  lemma SignedEnvelopeIff(job: Job, env: Envelope, payload: Bytes)
    ensures SignedEnvelope(job, env, payload) <==> Signed(job, env, payload)
  {
    var digest := job.c.sha256(Pae(env.payloadType, payload));
    if Signed(job, env, payload) {
      var i :| 0 <= i < |env.signatures| && i < MAX_SIGNATURES && SignatureCounts(job, env, payload, i);
      var sig := job.c.base64(env.signatures[i]).value;
      var n :| 0 <= n < |job.keys| && job.c.ecdsa(job.keys[n], digest, sig);
      assert job.keys[n] in job.keys;
    }
    if i: nat, key, sig :| i < |env.signatures| && i < 4 && key in job.keys && job.c.base64(env.signatures[i]) == Some(sig) && job.c.ecdsa(key, digest, sig) {
      assert SignatureCounts(job, env, payload, i);
    }
  }

  /** The document a layer holds, if it is an envelope that can be read. */
  function DocumentAt(job: Job, q: Query, k: nat, l: Descriptor): Option<Document>
  {
    if l.mediaType == DSSE_ENVELOPE && Blob(job, q.stage, k, l).Got? then Unwrapped(job, Blob(job, q.stage, k, l).value) else None
  }

  lemma ContainsIff(job: Job, q: Query, k: nat, l: Descriptor, env: Envelope, payload: Bytes, st: Statement)
    ensures Contains(job, q, k, l, env, payload, st) <==> DocumentAt(job, q, k, l) == Some(Document(env, payload, st))
  {
  }

  lemma AttestsToIff(job: Job, q: Query, k: nat, l: Descriptor, p: Json)
    ensures var d := DocumentAt(job, q, k, l);
            AttestsTo(job, q, k, l, p) <==> d.Some? && Attests(job, q, d.value) && d.value.st.content == p
  {
    var d := DocumentAt(job, q, k, l);
    if d.Some? {
      SignedEnvelopeIff(job, d.value.env, d.value.payload);
      NamesImageIff(job, d.value.st);
      ContainsIff(job, q, k, l, d.value.env, d.value.payload, d.value.st);
    }
    if env, payload, st :| Contains(job, q, k, l, env, payload, st) {
      ContainsIff(job, q, k, l, env, payload, st);
    }
  }

  lemma PassesDocument(job: Job, q: Query, k: nat, l: Descriptor, p: Json)
    ensures var d := DocumentAt(job, q, k, l);
            LayerPasses(job, q, k, l, p) <==>
              !job.w.ended(q.stage, k) && (d.Some? && Attests(job, q, d.value) && d.value.st.content == p) && ValidPredicate(job, q, p)
  {
  }

  lemma PassesIff(job: Job, q: Query, k: nat, l: Descriptor, p: Json)
    ensures LayerPasses(job, q, k, l, p) <==> !job.w.ended(q.stage, k) && GoodAttestation(job, q, k, l, p)
  {
    PassesDocument(job, q, k, l, p);
    AttestsToIff(job, q, k, l, p);
    GoodIs(job, q, k, l, p);
  }

  lemma GoodIs(job: Job, q: Query, k: nat, l: Descriptor, p: Json)
    ensures GoodAttestation(job, q, k, l, p) <==> AttestsTo(job, q, k, l, p) && ValidPredicate(job, q, p)
  {
  }

  lemma RejectsIff(job: Job, q: Query, k: nat, l: Descriptor)
    ensures LayerRejects(job, q, k, l) <==> !job.w.ended(q.stage, k) && exists p :: AttestsTo(job, q, k, l, p) && !ValidPredicate(job, q, p)
  {
    if LayerRejects(job, q, k, l) {
      RejectedAttests(job, q, k, l);
    }
    if !job.w.ended(q.stage, k) {
      if p :| AttestsTo(job, q, k, l, p) && !ValidPredicate(job, q, p) {
        InvalidIsRejected(job, q, k, l, p);
      }
    }
  }

  lemma RejectedAttests(job: Job, q: Query, k: nat, l: Descriptor)
    requires LayerRejects(job, q, k, l)
    ensures exists p :: AttestsTo(job, q, k, l, p) && !ValidPredicate(job, q, p)
  {
    AttestsToIff(job, q, k, l, DocumentAt(job, q, k, l).value.st.content);
  }

  lemma InvalidIsRejected(job: Job, q: Query, k: nat, l: Descriptor, p: Json)
    requires !job.w.ended(q.stage, k) && AttestsTo(job, q, k, l, p) && !ValidPredicate(job, q, p)
    ensures LayerRejects(job, q, k, l)
  {
    AttestsToIff(job, q, k, l, p);
  }

  lemma ClaimsIff(job: Job, q: Query, k: nat, l: Descriptor)
    ensures LayerClaims(job, q, k, l) <==> Claims(job, q, k, l)
  {
    var d := DocumentAt(job, q, k, l);
    if d.Some? {
      ContainsIff(job, q, k, l, d.value.env, d.value.payload, d.value.st);
    }
  }

  lemma AttestedAtIff(job: Job, q: Query, layers: seq<Descriptor>, k: nat, p: Json)
    ensures AttestedAt(job, q, layers, k, p) <==> FirstPassing(job, q, layers, k, p)
  {
    forall j, other | 0 <= j < |layers|
      ensures LayerPasses(job, q, j, layers[j], other) <==> !job.w.ended(q.stage, j) && GoodAttestation(job, q, j, layers[j], other)
    {
      PassesIff(job, q, j, layers[j], other);
    }
    assert forall j :: 0 <= j < |layers| ==> (LayerBreaks(job, q, j, layers[j]) <==> AttestationEnds(job, q, j, layers[j]));
    if AttestedAt(job, q, layers, k, p) {
      forall j | 0 <= j < k
        ensures LayerFails(job, q, j, layers[j])
      {
        assert !AttestationEnds(job, q, j, layers[j]);
      }
    }
    if FirstPassing(job, q, layers, k, p) {
      forall j | 0 <= j < k
        ensures !AttestationEnds(job, q, j, layers[j]) && forall other :: !GoodAttestation(job, q, j, layers[j], other)
      {
        assert LayerFails(job, q, j, layers[j]);
      }
    }
  }

  /** Where some layer ends the search or is good, the first such layer decides. */
  lemma {:induction false} FirstDecides(job: Job, q: Query, layers: seq<Descriptor>, n: nat)
    requires n < |layers| && (AttestationEnds(job, q, n, layers[n]) || exists p :: GoodAttestation(job, q, n, layers[n], p))
    ensures (exists k: nat :: AttestationEndsAt(job, q, layers, k)) || exists k: nat, p :: AttestedAt(job, q, layers, k, p)
    decreases n
  {
    if m, p :| 0 <= m < n && GoodAttestation(job, q, m, layers[m], p) {
      FirstDecides(job, q, layers, m);
    } else if m :| 0 <= m <= n && AttestationEnds(job, q, m, layers[m]) {
      assert AttestationEndsAt(job, q, layers, m);
    } else {
      var p :| GoodAttestation(job, q, n, layers[n], p);
      assert AttestedAt(job, q, layers, n, p);
    }
  }

  lemma ReturnedIs(job: Job, q: Query, layers: seq<Descriptor>, p: Json)
    requires Layers(job, q.stage) == Some(layers)
    ensures AttestationResult(job, q).content == Some(p) <==> exists k: nat :: AttestedAt(job, q, layers, k, p)
  {
    PredicateReturnedIff(job, q, p);
    forall k: nat
      ensures AttestedAt(job, q, layers, k, p) <==> FirstPassing(job, q, layers, k, p)
    {
      AttestedAtIff(job, q, layers, k, p);
    }
  }

  lemma BreaksIs(job: Job, q: Query, layers: seq<Descriptor>)
    requires forall k: nat, p :: !AttestedAt(job, q, layers, k, p)
    ensures SomeBreaks(job, q, layers) <==> exists k: nat :: AttestationEndsAt(job, q, layers, k)
  {
    if n: nat :| n < |layers| && LayerBreaks(job, q, n, layers[n]) {
      FirstDecides(job, q, layers, n);
    }
    if k: nat :| AttestationEndsAt(job, q, layers, k) {
      assert LayerBreaks(job, q, k, layers[k]);
    }
  }

  lemma NothingGood(job: Job, q: Query, layers: seq<Descriptor>, k: nat)
    requires k < |layers| && (forall m: nat, p :: !AttestedAt(job, q, layers, m, p)) && forall m: nat :: !AttestationEndsAt(job, q, layers, m)
    ensures !job.w.ended(q.stage, k) && forall p :: !GoodAttestation(job, q, k, layers[k], p)
  {
    if AttestationEnds(job, q, k, layers[k]) || exists p :: GoodAttestation(job, q, k, layers[k], p) {
      FirstDecides(job, q, layers, k);
    }
  }

  lemma RejectsIs(job: Job, q: Query, layers: seq<Descriptor>)
    requires (forall k: nat, p :: !AttestedAt(job, q, layers, k, p)) && forall k: nat :: !AttestationEndsAt(job, q, layers, k)
    ensures SomeRejects(job, q, layers) <==> exists k: nat, p :: k < |layers| && AttestsTo(job, q, k, layers[k], p)
  {
    if k: nat :| k < |layers| && LayerRejects(job, q, k, layers[k]) {
      RejectsIff(job, q, k, layers[k]);
    }
    if k: nat, p :| k < |layers| && AttestsTo(job, q, k, layers[k], p) {
      NothingGood(job, q, layers, k);
      RejectsIff(job, q, k, layers[k]);
      assert !GoodAttestation(job, q, k, layers[k], p);
    }
  }

  lemma ClaimsIs(job: Job, q: Query, layers: seq<Descriptor>)
    ensures SomeClaims(job, q, layers) <==> exists k: nat :: k < |layers| && Claims(job, q, k, layers[k])
  {
    if k: nat :| k < |layers| && LayerClaims(job, q, k, layers[k]) {
      ClaimsIff(job, q, k, layers[k]);
    }
    if k: nat :| k < |layers| && Claims(job, q, k, layers[k]) {
      ClaimsIff(job, q, k, layers[k]);
    }
  }

  lemma FailureIs(job: Job, q: Query, layers: seq<Descriptor>)
    requires Layers(job, q.stage) == Some(layers) && AttestationResult(job, q).content.None?
    requires forall k: nat, p :: !AttestedAt(job, q, layers, k, p)
    ensures AttestationResult(job, q).code == FailureCode(job, q, layers)
  {
    FailureCodeIs(job, q);
    BreaksIs(job, q, layers);
    ClaimsIs(job, q, layers);
    if !SomeBreaks(job, q, layers) {
      RejectsIs(job, q, layers);
    }
  }

  lemma NoneAttested(job: Job, q: Query, layers: seq<Descriptor>)
    requires Layers(job, q.stage) == Some(layers) && AttestationResult(job, q).content.None?
    ensures forall k: nat, p :: !AttestedAt(job, q, layers, k, p)
  {
    forall k: nat, p
      ensures !AttestedAt(job, q, layers, k, p)
    {
      ReturnedIs(job, q, layers, p);
    }
  }

  lemma CodeIs(job: Job, q: Query, layers: seq<Descriptor>)
    requires Layers(job, q.stage) == Some(layers)
    ensures AttestationResult(job, q).code == if AttestationResult(job, q).content.Some? then Passed else FailureCode(job, q, layers)
  {
    if AttestationResult(job, q).content.None? {
      NoneAttested(job, q, layers);
      FailureIs(job, q, layers);
    }
  }

  lemma AttestationOfIff(job: Job, q: Query, layers: seq<Descriptor>, a: Attestation)
    requires Layers(job, q.stage) == Some(layers)
    ensures AttestationResult(job, q) == a <==> AttestationOf(job, q, layers, a)
  {
    forall p
      ensures AttestationResult(job, q).content == Some(p) <==> exists k: nat :: AttestedAt(job, q, layers, k, p)
    {
      ReturnedIs(job, q, layers, p);
    }
    CodeIs(job, q, layers);
    OneAnswer(job, q, layers, AttestationResult(job, q), a);
  }

  lemma OneAnswer(job: Job, q: Query, layers: seq<Descriptor>, r: Attestation, a: Attestation)
    requires forall p :: r.content == Some(p) <==> exists k: nat :: AttestedAt(job, q, layers, k, p)
    requires r.code == if r.content.Some? then Passed else FailureCode(job, q, layers)
    ensures r == a <==> AttestationOf(job, q, layers, a)
  {
    if a.content.None? && r.content.Some? {
      var k: nat :| AttestedAt(job, q, layers, k, r.content.value);
    }
    if a.content.None? && r.content.None? {
      forall k: nat, p
        ensures !AttestedAt(job, q, layers, k, p)
      {
        assert r.content != Some(p);
      }
    }
  }

  /** The attestation check answers exactly so: with the predicate of the first good layer if nothing ends the search
      up to it; else "down" if the tag cannot be read or something ends the search; else the invalid code if some
      layer attests with a predicate that does not validate, ADM-ATTESTATION-INVALID if some layer claims the type, and
      the missing code otherwise. */
  lemma AttestationIs(job: Job, q: Query, a: Attestation)
    requires q.stage != SignatureStage
    ensures AttestationResult(job, q) == a <==> AttestationAnswers(job, q, a)
  {
    forall layers
      ensures ReadsLayers(job, q.stage, "att", layers) <==> Layers(job, q.stage) == Some(layers)
    {
      ReadsLayersIff(job, q.stage, "att", layers);
    }
    if Layers(job, q.stage).Some? {
      AttestationOfIff(job, q, Layers(job, q.stage).value, a);
    }
  }

  // ---- The whole profile ---------------------------------------------------------------------------

  /** What each check answers. */
  datatype Checks = Checks(signature: Code -> bool, platform: Code -> bool, schemas: bool, sbom: Attestation -> bool, mock: Attestation -> bool)

  /** The checks in the profile's order; the first that fails names the code. */
  ghost predicate InOrder(x: Checks, r: Result)
  {
    if !x.signature(Passed) then exists code :: x.signature(code) && r == Refusal(code)
    else if !x.platform(Passed) then exists code :: x.platform(code) && r == Refusal(code)
    else if !x.schemas then r == Refusal(ProviderDown)
    else if forall p :: !x.sbom(Attestation(Some(p), Passed)) then exists code :: x.sbom(Attestation(None, code)) && r == Refusal(code)
    else if forall p :: !x.mock(Attestation(Some(p), Passed)) then exists code :: x.mock(Attestation(None, code)) && r == Refusal(code)
    else exists sbom, mock ::
           && x.sbom(Attestation(Some(sbom), Passed)) && x.mock(Attestation(Some(mock), Passed))
           && r == Result(Passed, map["https://cyclonedx.org/bom" := sbom, "https://facis.eu/ztd/mock-attestation/v1" := mock])
  }

  /** The bill of materials is asked for first, then the mock attestation. */
  function Materials(): Query
  {
    Query(SbomStage, "https://cyclonedx.org/bom", SbomMissing, SbomInvalid)
  }

  function MockAttestation(): Query
  {
    Query(MockStage, "https://facis.eu/ztd/mock-attestation/v1", NoAttestation, AttestationInvalid)
  }

  ghost predicate ProfileAnswers(job: Job, r: Result)
  {
    InOrder(Checks(code => SignatureAnswers(job, code), code => PlatformAnswers(job, code), job.w.schemas,
                   a => AttestationAnswers(job, Materials(), a), a => AttestationAnswers(job, MockAttestation(), a)), r)
  }

  lemma AttestationParts(job: Job, q: Query)
    requires q.stage != SignatureStage && q.missing != Passed && q.invalid != Passed
    ensures forall a :: AttestationAnswers(job, q, a) <==> a == AttestationResult(job, q)
    ensures AttestationResult(job, q).code == Passed <==> AttestationResult(job, q).content.Some?
  {
    PassedIffReturned(job, q);
    forall a
      ensures AttestationAnswers(job, q, a) <==> a == AttestationResult(job, q)
    {
      AttestationIs(job, q, a);
    }
  }

  lemma SignatureParts(job: Job)
    ensures forall code :: SignatureAnswers(job, code) <==> SignatureResult(job) == Result(code, map[])
    ensures SignatureResult(job).predicates == map[]
  {
    forall code
      ensures SignatureAnswers(job, code) <==> SignatureResult(job) == Result(code, map[])
    {
      SignatureIs(job, code);
    }
  }

  lemma PlatformParts(job: Job)
    ensures forall code :: PlatformAnswers(job, code) <==> PlatformResult(job) == Result(code, map[])
    ensures PlatformResult(job).predicates == map[]
  {
    forall code
      ensures PlatformAnswers(job, code) <==> PlatformResult(job) == Result(code, map[])
    {
      PlatformIs(job, code);
    }
  }

  /** A verification answers exactly what the profile says, admission and every refusal. */
  lemma VerifyIs(c: Codec, w: World, ref: Ref, policy: Policy, r: Result)
    ensures Verify(c, w, ref, policy) == r <==> ProfileAnswers(Job(c, w, ref, policy.keys), r)
  {
    var job := Job(c, w, ref, policy.keys);
    SignatureParts(job);
    PlatformParts(job);
    assert SBOM == Materials() && MOCK == MockAttestation();
    AttestationParts(job, Materials());
    AttestationParts(job, MockAttestation());
    FirstFailure(Checks(code => SignatureAnswers(job, code), code => PlatformAnswers(job, code), job.w.schemas,
                        a => AttestationAnswers(job, Materials(), a), a => AttestationAnswers(job, MockAttestation(), a)),
                 SignatureResult(job), PlatformResult(job), AttestationResult(job, SBOM), AttestationResult(job, MOCK), r);
  }

  lemma FirstFailure(x: Checks, signature: Result, platform: Result, sbom: Attestation, mock: Attestation, r: Result)
    requires signature.predicates == map[] && forall code :: x.signature(code) <==> signature == Result(code, map[])
    requires platform.predicates == map[] && forall code :: x.platform(code) <==> platform == Result(code, map[])
    requires (forall a :: x.sbom(a) <==> a == sbom) && (sbom.code == Passed <==> sbom.content.Some?)
    requires (forall a :: x.mock(a) <==> a == mock) && (mock.code == Passed <==> mock.content.Some?)
    ensures InOrder(x, r) <==>
              r == if !signature.OK() then signature
                   else if !platform.OK() then platform
                   else if !x.schemas then Refusal(ProviderDown)
                   else if sbom.content.None? then Refusal(sbom.code)
                   else if mock.content.None? then Refusal(mock.code)
                   else Result(Passed, map[PREDICATE_SBOM := sbom.content.value, PREDICATE_MOCK := mock.content.value])
  {
    assert x.signature(signature.code) && x.platform(platform.code) && x.sbom(sbom) && x.mock(mock);
    if sbom.content.None? {
      assert sbom == Attestation(None, sbom.code);
    }
    if mock.content.None? {
      assert mock == Attestation(None, mock.code);
    }
  }
}
