/**
 The signing profile: what one verification of one image checks, in which order, and which reason code
 names its first failure.  The registry is an arbitrary response function and cryptography and document
 formats are arbitrary functions, so every statement holds whatever they answer.
 */
module Profile {
  import opened Text
  import opened Dsse
  import opened Refs

  type PublicKey = string
  type Json = string

  /** Reason codes; Passed is the empty code. */
  datatype Code =
    | Passed | NotDigest | RegistryDenied | Unsigned | SbomMissing | SbomInvalid | NoAttestation
    | AttestationInvalid | ProviderDown | NotLinux | ArchUnsupported | IndexUnsupported

  datatype Result = Result(code: Code, predicates: map<string, Json>)
  {
    predicate OK() { code == Passed }
  }

  function Refusal(code: Code): Result
  {
    Result(code, map[])
  }

  datatype Policy = Policy(repositories: seq<string>, keys: seq<PublicKey>, revision: string)

  const PREDICATE_SBOM := "https://cyclonedx.org/bom"
  const PREDICATE_MOCK := "https://facis.eu/ztd/mock-attestation/v1"
  const STATEMENT_TYPE := "https://in-toto.io/Statement/v0.1"
  const IN_TOTO := "application/vnd.in-toto+json"
  const SIMPLE_SIGNING := "application/vnd.dev.cosign.simplesigning.v1+json"
  const DSSE_ENVELOPE := "application/vnd.dsse.envelope.v1+json"
  const SIGNATURE_ANNOTATION := "dev.cosignproject.cosign/signature"
  const COSIGN_SIGNATURE := "cosign container image signature"
  const OCI_MANIFEST := "application/vnd.oci.image.manifest.v1+json"
  const DOCKER_MANIFEST := "application/vnd.docker.distribution.manifest.v2+json"
  const MAX_LAYERS := 16
  const MAX_SIGNATURES := 4

  // ---- The world outside -----------------------------------------------------------------------

  datatype Stage = SignatureStage | PlatformStage | SbomStage | MockStage

  /** A registry answer: content, one of the three errors a layer may survive, or any other failure. */
  datatype Fetch<+T> = Got(value: T) | NotFound | DigestMismatch | TooLarge | Failed

  datatype Manifest = Manifest(mediaType: string, body: Bytes)
  datatype Descriptor = Descriptor(mediaType: string, digest: string, annotations: map<string, string>)
  datatype ImageManifest = ImageManifest(configDigest: string, layers: seq<Descriptor>)
  datatype SimpleSigning = SimpleSigning(typ: string, manifestDigest: string, dockerReference: string)
  datatype Envelope = Envelope(payloadType: Bytes, payload: string, signatures: seq<string>)
  datatype Statement = Statement(typ: string, predicateType: string, subjects: seq<map<string, string>>, content: Json)
  datatype Config = Config(os: string, architecture: string)

  /** The answers one verification meets: the context's state before layer i of a stage, the manifest of
      a stage and the blob of its layer i. */
  datatype World = World(
    ended: (Stage, nat) -> bool,
    manifest: (Stage, Ref, string) -> Fetch<Manifest>,
    blob: (Stage, nat, Ref, string) -> Fetch<Bytes>,
    schemas: bool)

  /** Cryptography and document formats. */
  datatype Codec = Codec(
    sha256: Bytes -> Bytes,
    ecdsa: (PublicKey, Bytes, Bytes) -> bool,
    base64: string -> Option<Bytes>,
    imageManifest: Bytes -> Option<ImageManifest>,
    simpleSigning: Bytes -> Option<SimpleSigning>,
    envelope: Bytes -> Option<Envelope>,
    statement: Bytes -> Option<Statement>,
    config: Bytes -> Option<Config>,
    validSbom: (Ref, Json) -> bool,
    validMock: Json -> bool)

  /** One verification: the documents' formats, the world's answers, the image and the trusted keys. */
  datatype Job = Job(c: Codec, w: World, ref: Ref, keys: seq<PublicKey>)

  /** One required attestation. */
  datatype Query = Query(stage: Stage, want: string, missing: Code, invalid: Code)

  const SBOM := Query(SbomStage, PREDICATE_SBOM, SbomMissing, SbomInvalid)
  const MOCK := Query(MockStage, PREDICATE_MOCK, NoAttestation, AttestationInvalid)

  function Annotation(l: Descriptor, name: string): string
  {
    if name in l.annotations then l.annotations[name] else ""
  }

  // ---- Layers of a cosign tag ------------------------------------------------------------------

  /** The digest with its first ":" replaced by "-", and the suffix. */
  function TagFor(digest: string, suffix: string): string
  {
    var c := Cut(digest, ':');
    (if c.found then c.before + "-" + c.after else digest) + "." + suffix
  }

  function Suffix(stage: Stage): string
  {
    if stage == SignatureStage then "sig" else "att"
  }

  /** At most the first sixteen layers at the cosign tag; a missing tag has none, any other failure (and
      a manifest that does not decode) is None. */
  function Layers(job: Job, stage: Stage): Option<seq<Descriptor>>
  {
    match job.w.manifest(stage, job.ref, TagFor(job.ref.digest, Suffix(stage)))
    case NotFound => Some([])
    case Got(m) =>
      (match job.c.imageManifest(m.body)
       case None => None
       case Some(im) => Some(if |im.layers| > MAX_LAYERS then im.layers[..MAX_LAYERS] else im.layers))
    case _ => None
  }

  function Blob(job: Job, stage: Stage, i: nat, l: Descriptor): Fetch<Bytes>
  {
    job.w.blob(stage, i, job.ref, l.digest)
  }

  /** Some trusted key verifies the signature. */
  predicate Trusted(job: Job, digest: Bytes, sig: Bytes)
  {
    exists k :: 0 <= k < |job.keys| && job.c.ecdsa(job.keys[k], digest, sig)
  }

  method VerifySig(job: Job, digest: Bytes, sig: Bytes) returns (ok: bool)
    ensures ok <==> Trusted(job, digest, sig)
  {
    for k := 0 to |job.keys|
      invariant forall j :: 0 <= j < k ==> !job.c.ecdsa(job.keys[j], digest, sig)
    {
      if job.c.ecdsa(job.keys[k], digest, sig) {
        return true;
      }
    }
    return false;
  }

  // ---- Signatures ------------------------------------------------------------------------------

  /** What one signature layer contributes: nothing, a valid signature, or the end of the verification. */
  datatype SignatureOutcome = Unusable | Valid | Interrupted

  /** The payload is signed by a trusted key and names exactly this image. */
  ghost predicate SignsImage(job: Job, l: Descriptor, payload: Bytes)
  {
    var sig := job.c.base64(Annotation(l, SIGNATURE_ANNOTATION));
    && sig.Some? && sig.value != []
    && Trusted(job, job.c.sha256(payload), sig.value)
    && job.c.simpleSigning(payload) == Some(SimpleSigning(COSIGN_SIGNATURE, job.ref.digest, job.ref.Name()))
  }

  ghost function SignatureLayer(job: Job, i: nat, l: Descriptor): SignatureOutcome
  {
    if job.w.ended(SignatureStage, i) then Interrupted
    else if l.mediaType != SIMPLE_SIGNING then Unusable
    else
      var sig := job.c.base64(Annotation(l, SIGNATURE_ANNOTATION));
      if sig.None? || sig.value == [] then Unusable
      else
        match Blob(job, SignatureStage, i, l)
        case Failed => Interrupted
        case Got(payload) => if SignsImage(job, l, payload) then Valid else Unusable
        case _ => Unusable
  }

  /** The first layer that is not Unusable, or the number of layers. */
  ghost function Decisive(job: Job, layers: seq<Descriptor>, from: nat): (k: nat)
    requires from <= |layers|
    ensures from <= k <= |layers|
    ensures forall j :: from <= j < k ==> SignatureLayer(job, j, layers[j]) == Unusable
    ensures k < |layers| ==> SignatureLayer(job, k, layers[k]) != Unusable
    decreases |layers| - from
  {
    if from < |layers| && SignatureLayer(job, from, layers[from]) == Unusable
    then Decisive(job, layers, from + 1) else from
  }

  ghost function SignatureResult(job: Job): Result
  {
    match Layers(job, SignatureStage)
    case None => Refusal(ProviderDown)
    case Some(layers) =>
      var k := Decisive(job, layers, 0);
      if k == |layers| then Refusal(Unsigned)
      else if SignatureLayer(job, k, layers[k]) == Valid then Result(Passed, map[])
      else Refusal(ProviderDown)
  }

  /** One layer of the signature tag. */
  method ExamineSignature(job: Job, i: nat, l: Descriptor) returns (o: SignatureOutcome)
    ensures o == SignatureLayer(job, i, l)
  {
    if job.w.ended(SignatureStage, i) {
      return Interrupted;
    }
    if l.mediaType != SIMPLE_SIGNING {
      return Unusable;
    }
    var sig := job.c.base64(Annotation(l, SIGNATURE_ANNOTATION));
    if sig.None? || |sig.value| == 0 {
      return Unusable;
    }
    var fetched := Blob(job, SignatureStage, i, l);
    if !fetched.Got? {
      if fetched.NotFound? || fetched.DigestMismatch? || fetched.TooLarge? {
        return Unusable;
      }
      return Interrupted;
    }
    var trusted := VerifySig(job, job.c.sha256(fetched.value), sig.value);
    if !trusted {
      return Unusable;
    }
    var ss := job.c.simpleSigning(fetched.value);
    if ss.None? {
      return Unusable;
    }
    if ss.value.typ == COSIGN_SIGNATURE && ss.value.manifestDigest == job.ref.digest && ss.value.dockerReference == job.ref.Name() {
      return Valid;
    }
    return Unusable;
  }

  method VerifySignature(job: Job) returns (r: Result)
    ensures r == SignatureResult(job)
  {
    var found := Layers(job, SignatureStage);
    if found.None? {
      return Refusal(ProviderDown);
    }
    var layers := found.value;
    for i := 0 to |layers|
      invariant forall j :: 0 <= j < i ==> SignatureLayer(job, j, layers[j]) == Unusable
    {
      var o := ExamineSignature(job, i, layers[i]);
      if o == Interrupted {
        return Refusal(ProviderDown);
      }
      if o == Valid {
        return Result(Passed, map[]);
      }
    }
    return Refusal(Unsigned);
  }

  // ---- Attestations ----------------------------------------------------------------------------

  /** What one attestation layer contributes. */
  datatype Outcome =
    | Skipped(claimed: bool)      // not usable; `claimed` says that it claims the wanted type
    | Broken                      // the context ended or the registry failed
    | Rejected                    // signed and bound, but the predicate does not validate
    | Accepted(content: Json)

  /** One of the first four signatures is by a trusted key, over the pre-authentication encoding. */
  ghost predicate Signed(job: Job, env: Envelope, payload: Bytes)
  {
    exists k :: 0 <= k < |env.signatures| && k < MAX_SIGNATURES && SignatureCounts(job, env, payload, k)
  }

  ghost predicate SignatureCounts(job: Job, env: Envelope, payload: Bytes, k: nat)
    requires k < |env.signatures|
  {
    && job.c.base64(env.signatures[k]).Some?
    && Trusted(job, job.c.sha256(Pae(env.payloadType, payload)), job.c.base64(env.signatures[k]).value)
  }

  function Fold(ch: char): char
  {
    if 'A' <= ch <= 'Z' then (ch as int + 32) as char else ch
  }

  predicate EqualFold(a: string, b: string)
  {
    |a| == |b| && forall i :: 0 <= i < |a| ==> Fold(a[i]) == Fold(b[i])
  }

  predicate NamesDigest(subject: map<string, string>, wantHex: string)
  {
    "sha256" in subject && |subject["sha256"]| == 64 && EqualFold(subject["sha256"], wantHex)
  }

  ghost predicate Bound(st: Statement, wantHex: string)
  {
    exists k :: 0 <= k < |st.subjects| && NamesDigest(st.subjects[k], wantHex)
  }

  function WantHex(ref: Ref): string
  {
    if HasPrefix(ref.digest, "sha256:") then ref.digest[7..] else ref.digest
  }

  predicate Validates(job: Job, stage: Stage, p: Json)
  {
    if stage == SbomStage then job.c.validSbom(job.ref, p) else job.c.validMock(p)
  }

  ghost function EnvelopeOutcome(job: Job, q: Query, annotated: bool, raw: Bytes): Outcome
  {
    match job.c.envelope(raw)
    case None => Skipped(annotated)
    case Some(env) =>
      match job.c.base64(env.payload)
      case None => Skipped(annotated)
      case Some(payload) =>
        match job.c.statement(payload)
        case None => Skipped(annotated)
        case Some(st) =>
          if st.predicateType != q.want then Skipped(annotated)
          else if env.payloadType != IN_TOTO || st.typ != STATEMENT_TYPE then Skipped(true)
          else if !Signed(job, env, payload) || !Bound(st, WantHex(job.ref)) then Skipped(true)
          else if Validates(job, q.stage, st.content) then Accepted(st.content)
          else Rejected
  }

  ghost function LayerOutcome(job: Job, q: Query, i: nat, l: Descriptor): Outcome
  {
    if job.w.ended(q.stage, i) then Broken
    else if l.mediaType != DSSE_ENVELOPE then Skipped(false)
    else
      var annotated := Annotation(l, "predicateType") == q.want;
      match Blob(job, q.stage, i, l)
      case Failed => Broken
      case Got(raw) => EnvelopeOutcome(job, q, annotated, raw)
      case _ => Skipped(annotated)
  }

  ghost function Outcomes(job: Job, q: Query, layers: seq<Descriptor>): (os: seq<Outcome>)
    ensures |os| == |layers|
    ensures forall i :: 0 <= i < |layers| ==> os[i] == LayerOutcome(job, q, i, layers[i])
  {
    seq(|layers|, i requires 0 <= i < |layers| => LayerOutcome(job, q, i, layers[i]))
  }

  /** A returned predicate, or the reason code. */
  datatype Attestation = Attestation(content: Option<Json>, code: Code)

  predicate Stops(o: Outcome)
  {
    o.Broken? || o.Accepted?
  }

  /** The first outcome that ends the search, or the number of outcomes. */
  function FirstStop(os: seq<Outcome>): (k: nat)
    ensures k <= |os|
    ensures forall j :: 0 <= j < k ==> !Stops(os[j])
    ensures k < |os| ==> Stops(os[k])
  {
    if os == [] || Stops(os[0]) then 0 else FirstStop(os[1..]) + 1
  }

  /** The precedence of the codes: the first layer that stops the search decides; with none, a rejected
      predicate counts for more than a claim, and a claim for more than nothing. */
  function Verdict(os: seq<Outcome>, q: Query): Attestation
  {
    var k := FirstStop(os);
    if k < |os| then
      if os[k].Broken? then Attestation(None, ProviderDown) else Attestation(Some(os[k].content), Passed)
    else if Rejected in os then Attestation(None, q.invalid)
    else if Skipped(true) in os then Attestation(None, AttestationInvalid)
    else Attestation(None, q.missing)
  }

  ghost function AttestationResult(job: Job, q: Query): Attestation
  {
    match Layers(job, q.stage)
    case None => Attestation(None, ProviderDown)
    case Some(layers) => Verdict(Outcomes(job, q, layers), q)
  }

  method AnySignature(job: Job, env: Envelope, payload: Bytes) returns (signed: bool)
    ensures signed <==> Signed(job, env, payload)
  {
    var sigs := env.signatures;
    if |sigs| > MAX_SIGNATURES {
      sigs := sigs[..MAX_SIGNATURES];
    }
    var digest := job.c.sha256(Pae(env.payloadType, payload));
    signed := false;
    for k := 0 to |sigs|
      invariant !signed
      invariant forall j :: 0 <= j < k ==> !SignatureCounts(job, env, payload, j)
    {
      var sig := job.c.base64(sigs[k]);
      if sig.Some? {
        var ok := VerifySig(job, digest, sig.value);
        if ok {
          signed := true;
          assert SignatureCounts(job, env, payload, k);
          break;
        }
      }
    }
  }

  method AnySubject(st: Statement, wantHex: string) returns (bound: bool)
    ensures bound <==> Bound(st, wantHex)
  {
    bound := false;
    for k := 0 to |st.subjects|
      invariant bound <==> exists j :: 0 <= j < k && NamesDigest(st.subjects[j], wantHex)
    {
      if NamesDigest(st.subjects[k], wantHex) {
        bound := true;
      }
    }
  }

  /** One layer of the attestation tag. */
  method ExamineAttestation(job: Job, q: Query, i: nat, l: Descriptor) returns (o: Outcome)
    ensures o == LayerOutcome(job, q, i, l)
  {
    if job.w.ended(q.stage, i) {
      return Broken;
    }
    if l.mediaType != DSSE_ENVELOPE {
      return Skipped(false);
    }
    var claimed := Annotation(l, "predicateType") == q.want;
    var fetched := Blob(job, q.stage, i, l);
    if !fetched.Got? {
      if fetched.NotFound? || fetched.DigestMismatch? || fetched.TooLarge? {
        return Skipped(claimed);
      }
      return Broken;
    }
    var env := job.c.envelope(fetched.value);
    if env.None? {
      return Skipped(claimed);
    }
    var payload := job.c.base64(env.value.payload);
    if payload.None? {
      return Skipped(claimed);
    }
    var st := job.c.statement(payload.value);
    if st.None? || st.value.predicateType != q.want {
      return Skipped(claimed);
    }
    if env.value.payloadType != IN_TOTO || st.value.typ != STATEMENT_TYPE {
      return Skipped(true);
    }
    var signed := AnySignature(job, env.value, payload.value);
    if !signed {
      return Skipped(true);
    }
    var bound := AnySubject(st.value, WantHex(job.ref));
    if !bound {
      return Skipped(true);
    }
    if !Validates(job, q.stage, st.value.content) {
      return Rejected;
    }
    return Accepted(st.value.content);
  }

  method VerifyAttestation(job: Job, q: Query) returns (r: Attestation)
    ensures r == AttestationResult(job, q)
  {
    var found := Layers(job, q.stage);
    if found.None? {
      return Attestation(None, ProviderDown);
    }
    var layers := found.value;
    ghost var os := Outcomes(job, q, layers);
    var claimed, predicateErr := false, false;
    for i := 0 to |layers|
      invariant forall j :: 0 <= j < i ==> !Stops(os[j])
      invariant predicateErr <==> Rejected in os[..i]
      invariant claimed <==> Skipped(true) in os[..i]
    {
      assert os[..i + 1] == os[..i] + [os[i]];
      var o := ExamineAttestation(job, q, i, layers[i]);
      match o
      case Broken =>
        FirstStopIs(os, i);
        return Attestation(None, ProviderDown);
      case Accepted(content) =>
        FirstStopIs(os, i);
        return Attestation(Some(content), Passed);
      case Rejected =>
        predicateErr := true;
      case Skipped(claim) =>
        claimed := claimed || claim;
    }
    FirstStopIs(os, |layers|);
    assert os[..|layers|] == os;
    if predicateErr {
      return Attestation(None, q.invalid);
    }
    if claimed {
      return Attestation(None, AttestationInvalid);
    }
    return Attestation(None, q.missing);
  }

  lemma FirstStopIs(os: seq<Outcome>, i: nat)
    requires i <= |os|
    requires forall j :: 0 <= j < i ==> !Stops(os[j])
    requires i < |os| ==> Stops(os[i])
    ensures FirstStop(os) == i
  {
    var k := FirstStop(os);
    assert !(k < i) && !(i < k);
  }

  // ---- What an attestation verdict means -------------------------------------------------------

  /** An envelope, its decoded payload and the statement in that. */
  datatype Document = Document(env: Envelope, payload: Bytes, st: Statement)

  function Unwrapped(job: Job, raw: Bytes): Option<Document>
  {
    var env := job.c.envelope(raw);
    var payload := if env.Some? then job.c.base64(env.value.payload) else None;
    var st := if payload.Some? then job.c.statement(payload.value) else None;
    if st.Some? then Some(Document(env.value, payload.value, st.value)) else None
  }

  /** An attestation of the wanted type for this image, whatever its predicate: in-toto throughout, one of the
      first four signatures over its encoding is by a trusted key, and a subject is this digest. */
  ghost predicate Attests(job: Job, q: Query, d: Document)
  {
    && d.env.payloadType == IN_TOTO && d.st.typ == STATEMENT_TYPE && d.st.predicateType == q.want
    && Signed(job, d.env, d.payload) && Bound(d.st, WantHex(job.ref))
  }

  /** Every check of the profile on one attestation document, said at once: it attests, and its predicate p
      validates. */
  ghost predicate Genuine(job: Job, q: Query, raw: Bytes, p: Json)
  {
    var d := Unwrapped(job, raw);
    d.Some? && Attests(job, q, d.value) && Validates(job, q.stage, p) && p == d.value.st.content
  }

  /** Layer i can be read and its document passes every check with predicate p. */
  ghost predicate LayerPasses(job: Job, q: Query, i: nat, l: Descriptor, p: Json)
  {
    !job.w.ended(q.stage, i) && l.mediaType == DSSE_ENVELOPE &&
    Blob(job, q.stage, i, l).Got? && Genuine(job, q, Blob(job, q.stage, i, l).value, p)
  }

  /** Reading layer i ends the verification: the context is over or the registry fails. */
  predicate LayerBreaks(job: Job, q: Query, i: nat, l: Descriptor)
  {
    job.w.ended(q.stage, i) || (l.mediaType == DSSE_ENVELOPE && Blob(job, q.stage, i, l).Failed?)
  }

  /** Layer i attests, but its predicate does not validate. */
  ghost predicate LayerRejects(job: Job, q: Query, i: nat, l: Descriptor)
  {
    !job.w.ended(q.stage, i) && l.mediaType == DSSE_ENVELOPE && Blob(job, q.stage, i, l).Got? &&
    var d := Unwrapped(job, Blob(job, q.stage, i, l).value);
    d.Some? && Attests(job, q, d.value) && !Validates(job, q.stage, d.value.st.content)
  }

  /** Layer i is put forward as an attestation of the wanted type: by its annotation, or by the statement in it. */
  ghost predicate LayerClaims(job: Job, q: Query, i: nat, l: Descriptor)
  {
    l.mediaType == DSSE_ENVELOPE &&
    (Annotation(l, "predicateType") == q.want ||
     (Blob(job, q.stage, i, l).Got? &&
      var d := Unwrapped(job, Blob(job, q.stage, i, l).value);
      d.Some? && d.value.st.predicateType == q.want))
  }

  /** Layer i neither ends the verification nor passes. */
  ghost predicate LayerFails(job: Job, q: Query, i: nat, l: Descriptor)
  {
    !LayerBreaks(job, q, i, l) && forall p :: !LayerPasses(job, q, i, l, p)
  }

  lemma BreaksMeaning(job: Job, q: Query, i: nat, l: Descriptor)
    ensures LayerOutcome(job, q, i, l) == Broken <==> LayerBreaks(job, q, i, l)
  {
  }

  lemma PassesMeaning(job: Job, q: Query, i: nat, l: Descriptor, p: Json)
    ensures LayerOutcome(job, q, i, l) == Accepted(p) <==> LayerPasses(job, q, i, l, p)
  {
  }

  lemma FailsMeaning(job: Job, q: Query, i: nat, l: Descriptor)
    ensures !Stops(LayerOutcome(job, q, i, l)) <==> LayerFails(job, q, i, l)
  {
    var o := LayerOutcome(job, q, i, l);
    BreaksMeaning(job, q, i, l);
    forall p
      ensures o == Accepted(p) <==> LayerPasses(job, q, i, l, p)
    {
      PassesMeaning(job, q, i, l, p);
    }
    if o.Accepted? {
      assert LayerPasses(job, q, i, l, o.content);
    }
  }

  /** Layer k passes with p and every layer before it fails without ending the verification. */
  ghost predicate FirstPassing(job: Job, q: Query, layers: seq<Descriptor>, k: nat, p: Json)
  {
    k < |layers| && LayerPasses(job, q, k, layers[k], p) && forall j :: 0 <= j < k ==> LayerFails(job, q, j, layers[j])
  }

  /** A predicate is returned exactly when some layer among the first sixteen passes every check and
      nothing breaks up to it; it is the predicate of the first such layer. */
  lemma PredicateReturnedIff(job: Job, q: Query, p: Json)
    ensures AttestationResult(job, q).content == Some(p) <==>
            Layers(job, q.stage).Some? && exists k: nat :: FirstPassing(job, q, Layers(job, q.stage).value, k, p)
  {
    var found := Layers(job, q.stage);
    if found.Some? {
      var layers := found.value;
      var os := Outcomes(job, q, layers);
      forall j | 0 <= j < |layers|
        ensures Stops(os[j]) <==> !LayerFails(job, q, j, layers[j])
        ensures os[j] == Accepted(p) <==> LayerPasses(job, q, j, layers[j], p)
      {
        FailsMeaning(job, q, j, layers[j]);
        PassesMeaning(job, q, j, layers[j], p);
      }
      var k := FirstStop(os);
      if k < |os| && os[k] == Accepted(p) {
        assert FirstPassing(job, q, layers, k, p);
      }
      if m: nat :| FirstPassing(job, q, layers, m, p) {
        FirstStopIs(os, m);
      }
    }
  }

  lemma RejectsMeaning(job: Job, q: Query, i: nat, l: Descriptor)
    ensures LayerOutcome(job, q, i, l) == Rejected <==> LayerRejects(job, q, i, l)
  {
  }

  /** A layer that neither ends the verification nor attests is remembered exactly if it claims the type. */
  lemma ClaimsMeaning(job: Job, q: Query, i: nat, l: Descriptor)
    requires LayerOutcome(job, q, i, l).Skipped?
    ensures LayerOutcome(job, q, i, l) == Skipped(true) <==> LayerClaims(job, q, i, l)
  {
  }

  ghost predicate SomeBreaks(job: Job, q: Query, layers: seq<Descriptor>)
  {
    exists j :: 0 <= j < |layers| && LayerBreaks(job, q, j, layers[j])
  }

  ghost predicate SomeRejects(job: Job, q: Query, layers: seq<Descriptor>)
  {
    exists j :: 0 <= j < |layers| && LayerRejects(job, q, j, layers[j])
  }

  ghost predicate SomeClaims(job: Job, q: Query, layers: seq<Descriptor>)
  {
    exists j :: 0 <= j < |layers| && LayerClaims(job, q, j, layers[j])
  }

  /** Without a predicate the code is exactly: down if the tag cannot be read or reading some layer breaks off;
      else the invalid code if some layer attests with a predicate that does not validate; else
      ADM-ATTESTATION-INVALID if some layer claims the type; else the missing code. */
  lemma FailureCodeIs(job: Job, q: Query)
    requires AttestationResult(job, q).content.None?
    ensures var found := Layers(job, q.stage);
            AttestationResult(job, q).code ==
            if found.None? || SomeBreaks(job, q, found.value) then ProviderDown
            else if SomeRejects(job, q, found.value) then q.invalid
            else if SomeClaims(job, q, found.value) then AttestationInvalid
            else q.missing
  {
    var found := Layers(job, q.stage);
    if found.Some? {
      var layers := found.value;
      var os := Outcomes(job, q, layers);
      BreaksAre(job, q, layers, os);
      if FirstStop(os) == |os| {
        RejectsAre(job, q, layers, os);
        ClaimsAre(job, q, layers, os);
      }
    }
  }

  lemma BreaksAre(job: Job, q: Query, layers: seq<Descriptor>, os: seq<Outcome>)
    requires os == Outcomes(job, q, layers)
    ensures SomeBreaks(job, q, layers) <==> exists j :: 0 <= j < |os| && os[j] == Broken
  {
    forall j | 0 <= j < |layers|
      ensures os[j] == Broken <==> LayerBreaks(job, q, j, layers[j])
    {
      BreaksMeaning(job, q, j, layers[j]);
    }
  }

  lemma RejectsAre(job: Job, q: Query, layers: seq<Descriptor>, os: seq<Outcome>)
    requires os == Outcomes(job, q, layers)
    ensures SomeRejects(job, q, layers) <==> Rejected in os
  {
    forall j | 0 <= j < |layers|
      ensures os[j] == Rejected <==> LayerRejects(job, q, j, layers[j])
    {
      RejectsMeaning(job, q, j, layers[j]);
    }
  }

  lemma ClaimsAre(job: Job, q: Query, layers: seq<Descriptor>, os: seq<Outcome>)
    requires os == Outcomes(job, q, layers) && forall j :: 0 <= j < |os| ==> !Stops(os[j])
    ensures Rejected !in os ==> (SomeClaims(job, q, layers) <==> Skipped(true) in os)
  {
    if Rejected !in os {
      forall j | 0 <= j < |layers|
        ensures os[j] == Skipped(true) <==> LayerClaims(job, q, j, layers[j])
      {
        assert os[j] in os && os[j].Skipped?;
        ClaimsMeaning(job, q, j, layers[j]);
      }
    }
  }

  // ---- The whole verification ------------------------------------------------------------------

  function PlatformResult(job: Job): Result
  {
    match job.w.manifest(PlatformStage, job.ref, job.ref.digest)
    case Got(m) =>
      if m.mediaType != OCI_MANIFEST && m.mediaType != DOCKER_MANIFEST then Refusal(IndexUnsupported)
      else
        var im := job.c.imageManifest(m.body);
        if im.None? || !ValidDigest(im.value.configDigest) then Refusal(IndexUnsupported)
        else
          (match job.w.blob(PlatformStage, 0, job.ref, im.value.configDigest)
           case Got(raw) =>
             var config := job.c.config(raw);
             if config.None? || config.value.os != "linux" then Refusal(NotLinux)
             else if config.value.architecture != "amd64" then Refusal(ArchUnsupported)
             else Result(Passed, map[])
           case _ => Refusal(ProviderDown))
    case _ => Refusal(ProviderDown)
  }

  /** The verdict of one verification against one world: the first failure, in the profile's order. */
  ghost function Verify(c: Codec, w: World, ref: Ref, policy: Policy): Result
  {
    var job := Job(c, w, ref, policy.keys);
    if !SignatureResult(job).OK() then SignatureResult(job)
    else if !PlatformResult(job).OK() then PlatformResult(job)
    else if !w.schemas then Refusal(ProviderDown)
    else
      var sbom, mock := AttestationResult(job, SBOM), AttestationResult(job, MOCK);
      if sbom.code != Passed || sbom.content.None? then Refusal(sbom.code)
      else if mock.code != Passed || mock.content.None? then Refusal(mock.code)
      else Result(Passed, map[PREDICATE_SBOM := sbom.content.value, PREDICATE_MOCK := mock.content.value])
  }

  method VerifyOnce(c: Codec, w: World, ref: Ref, policy: Policy) returns (r: Result)
    ensures r == Verify(c, w, ref, policy)
  {
    var job := Job(c, w, ref, policy.keys);
    r := VerifySignature(job);
    if !r.OK() {
      return;
    }
    r := PlatformResult(job);
    if !r.OK() {
      return;
    }
    if !w.schemas {
      return Refusal(ProviderDown);
    }
    var sbom := VerifyAttestation(job, SBOM);
    PassedIffReturned(job, SBOM);
    if sbom.code != Passed {
      return Refusal(sbom.code);
    }
    var mock := VerifyAttestation(job, MOCK);
    PassedIffReturned(job, MOCK);
    if mock.code != Passed {
      return Refusal(mock.code);
    }
    r := Result(Passed, map[PREDICATE_SBOM := sbom.content.value, PREDICATE_MOCK := mock.content.value]);
  }

  /** An attestation passes exactly when it returns a predicate. */
  lemma PassedIffReturned(job: Job, q: Query)
    requires q.missing != Passed && q.invalid != Passed
    ensures AttestationResult(job, q).code == Passed <==> AttestationResult(job, q).content.Some?
  {
  }

  /** Some layer of the signature tag holds a signature by a trusted key over a payload naming this
      repository and this digest. */
  ghost predicate HasTrustedSignature(job: Job)
  {
    && Layers(job, SignatureStage).Some?
    && var layers := Layers(job, SignatureStage).value;
       exists k :: 0 <= k < |layers| && Blob(job, SignatureStage, k, layers[k]).Got? &&
         SignsImage(job, layers[k], Blob(job, SignatureStage, k, layers[k]).value)
  }

  ghost predicate HasAttestation(job: Job, q: Query, p: Json)
  {
    && Layers(job, q.stage).Some?
    && var layers := Layers(job, q.stage).value;
       exists k :: 0 <= k < |layers| && LayerPasses(job, q, k, layers[k], p)
  }

  /** The image is a single-platform linux/amd64 manifest. */
  ghost predicate IsLinuxAmd64(job: Job)
  {
    exists m, im, raw ::
      job.w.manifest(PlatformStage, job.ref, job.ref.digest) == Got(m) && (m.mediaType == OCI_MANIFEST || m.mediaType == DOCKER_MANIFEST) &&
      job.c.imageManifest(m.body) == Some(im) && job.w.blob(PlatformStage, 0, job.ref, im.configDigest) == Got(raw) &&
      job.c.config(raw) == Some(Config("linux", "amd64"))
  }

  /** What an admitting verdict is evidence of. */
  ghost predicate Admissible(job: Job, predicates: map<string, Json>)
  {
    && HasTrustedSignature(job)
    && IsLinuxAmd64(job)
    && predicates.Keys == {PREDICATE_SBOM, PREDICATE_MOCK}
    && HasAttestation(job, SBOM, predicates[PREDICATE_SBOM])
    && HasAttestation(job, MOCK, predicates[PREDICATE_MOCK])
  }

  /** An admitted image has everything the profile asks for, and the verdict carries exactly the two
      required predicates. */
  lemma AdmittedMeans(c: Codec, w: World, ref: Ref, policy: Policy)
    requires Verify(c, w, ref, policy).OK()
    ensures Admissible(Job(c, w, ref, policy.keys), Verify(c, w, ref, policy).predicates)
  {
    var job := Job(c, w, ref, policy.keys);
    VerifyParts(c, w, ref, policy);
    SignatureMeans(job);
    PlatformMeans(job);
    PassingMeans(job, SBOM);
    PassingMeans(job, MOCK);
  }

  lemma VerifyParts(c: Codec, w: World, ref: Ref, policy: Policy)
    requires Verify(c, w, ref, policy).OK()
    ensures var job := Job(c, w, ref, policy.keys);
            var predicates := Verify(c, w, ref, policy).predicates;
            && SignatureResult(job).OK() && PlatformResult(job).OK()
            && predicates.Keys == {PREDICATE_SBOM, PREDICATE_MOCK}
            && AttestationResult(job, SBOM).content == Some(predicates[PREDICATE_SBOM])
            && AttestationResult(job, MOCK).content == Some(predicates[PREDICATE_MOCK])
  {
    DistinctTypes();
  }

  lemma DistinctTypes()
    ensures PREDICATE_SBOM != PREDICATE_MOCK
  {
    assert PREDICATE_SBOM[8] != PREDICATE_MOCK[8];
  }

  lemma SignatureMeans(job: Job)
    requires SignatureResult(job).OK()
    ensures HasTrustedSignature(job)
  {
    var layers := Layers(job, SignatureStage).value;
    var k := Decisive(job, layers, 0);
    assert SignatureLayer(job, k, layers[k]) == Valid;
  }

  lemma PassingMeans(job: Job, q: Query)
    requires AttestationResult(job, q).content.Some?
    ensures HasAttestation(job, q, AttestationResult(job, q).content.value)
  {
    PredicateReturnedIff(job, q, AttestationResult(job, q).content.value);
    var layers := Layers(job, q.stage).value;
    var k: nat :| FirstPassing(job, q, layers, k, AttestationResult(job, q).content.value);
    assert LayerPasses(job, q, k, layers[k], AttestationResult(job, q).content.value);
  }

  lemma PlatformMeans(job: Job)
    requires PlatformResult(job).OK()
    ensures IsLinuxAmd64(job)
  {
    var m := job.w.manifest(PlatformStage, job.ref, job.ref.digest).value;
    var im := job.c.imageManifest(m.body).value;
    var raw := job.w.blob(PlatformStage, 0, job.ref, im.configDigest).value;
    assert job.c.config(raw) == Some(Config("linux", "amd64"));
  }

  /** A policy without keys (the one the verifier starts with has none) admits nothing. */
  lemma NoKeysNothingAdmitted(c: Codec, w: World, ref: Ref, policy: Policy)
    requires policy.keys == []
    ensures !Verify(c, w, ref, policy).OK()
  {
    if Verify(c, w, ref, policy).OK() {
      SignatureMeans(Job(c, w, ref, policy.keys));
    }
  }
}
