/**
 Digest references, the repository allow-list and the cache key of the image verifier.
 */
module Refs {
  import opened Text

  datatype Ref = Ref(registry: string, repository: string, digest: string)
  {
    function Name(): string { registry + "/" + repository }

    function String(): string { Name() + "@" + digest }
  }

  const DIGEST_LENGTH := 71

  predicate LowerHex(c: char)
  {
    '0' <= c <= '9' || 'a' <= c <= 'f'
  }

  /** "sha256:" and 64 lower-case hexadecimal digits, nothing more. */
  predicate ValidDigest(d: string)
  {
    |d| == DIGEST_LENGTH && d[..7] == "sha256:" && forall i :: 7 <= i < |d| ==> LowerHex(d[i])
  }

  /** The host names a registry, never an implied Docker Hub. */
  predicate ExplicitHost(host: string)
  {
    '.' in host || ':' in host || host == "localhost"
  }

  function ParseRef(image: string): Option<Ref>
  {
    var at := Cut(image, '@');
    if !at.found || !ValidDigest(at.after) then None
    else
      var slash := Cut(at.before, '/');
      if !slash.found || slash.after == "" || ':' in slash.after || !ExplicitHost(slash.before) then None
      else Some(Ref(slash.before, slash.after, at.after))
  }

  /** What a parsed reference satisfies. */
  predicate WellFormed(r: Ref)
  {
    && ExplicitHost(r.registry) && '/' !in r.registry && '@' !in r.registry
    && r.repository != "" && ':' !in r.repository && '@' !in r.repository
    && ValidDigest(r.digest)
  }

  /** Every accepted image string is the string of its reference. */
  lemma ParseThenPrint(image: string)
    requires ParseRef(image).Some?
    ensures WellFormed(ParseRef(image).value) && ParseRef(image).value.String() == image
  {
    var at := Cut(image, '@');
    var slash := Cut(at.before, '/');
    assert forall c :: c in slash.before ==> c in at.before;
    assert forall c :: c in slash.after ==> c in at.before;
  }

  /** Every well-formed reference parses back to itself. */
  lemma PrintThenParse(r: Ref)
    requires WellFormed(r)
    ensures ParseRef(r.String()) == Some(r)
  {
    CutAt(r.Name(), '@', r.digest);
    CutAt(r.registry, '/', r.repository);
  }

  /** The references that can occur are exactly the well-formed ones. */
  lemma ParsedIffWellFormed(r: Ref)
    ensures WellFormed(r) <==> exists image :: ParseRef(image) == Some(r)
  {
    if WellFormed(r) {
      PrintThenParse(r);
    }
    forall image | ParseRef(image) == Some(r)
      ensures WellFormed(r)
    {
      ParseThenPrint(image);
    }
  }

  /** The images that are accepted: a host that says it is one, "/", a repository, "@sha256:" and 64 digits in lower
      case; nothing before the host's "/" or the "@" that could be taken for another one. */
  ghost predicate Written(image: string, host: string, repository: string, hex: string)
  {
    && image == host + "/" + repository + "@sha256:" + hex
    && '/' !in host && '@' !in host && ('.' in host || ':' in host || host == "localhost")
    && repository != "" && '@' !in repository && ':' !in repository
    && |hex| == 64 && forall i :: 0 <= i < 64 ==> '0' <= hex[i] <= '9' || 'a' <= hex[i] <= 'f'
  }

  /** Exactly these parse, each to its own parts. */
  lemma ParsedIff(image: string, r: Ref)
    ensures ParseRef(image) == Some(r) <==> exists hex :: r.digest == "sha256:" + hex && Written(image, r.registry, r.repository, hex)
  {
    if ParseRef(image) == Some(r) {
      ParsedIsWritten(image, r);
    }
    if hex :| r.digest == "sha256:" + hex && Written(image, r.registry, r.repository, hex) {
      WrittenParses(image, r, hex);
    }
  }

  lemma ParsedIsWritten(image: string, r: Ref)
    requires ParseRef(image) == Some(r)
    ensures r.digest == "sha256:" + r.digest[7..] && Written(image, r.registry, r.repository, r.digest[7..])
  {
    ParseThenPrint(image);
    var hex := r.digest[7..];
    assert forall i :: 0 <= i < 64 ==> hex[i] == r.digest[i + 7] && LowerHex(r.digest[i + 7]);
    NameAndDigest(r, hex);
  }

  lemma WrittenParses(image: string, r: Ref, hex: string)
    requires r.digest == "sha256:" + hex && Written(image, r.registry, r.repository, hex)
    ensures ParseRef(image) == Some(r)
  {
    assert forall i :: 7 <= i < |r.digest| ==> r.digest[i] == hex[i - 7];
    NameAndDigest(r, hex);
    PrintThenParse(r);
  }

  lemma NameAndDigest(r: Ref, hex: string)
    requires r.digest == "sha256:" + hex
    ensures r.String() == r.registry + "/" + r.repository + "@sha256:" + hex
  {
    assert "@" + ("sha256:" + hex) == "@sha256:" + hex;
    assert r.Name() + "@" + ("sha256:" + hex) == r.Name() + ("@" + ("sha256:" + hex));
  }

  // ---- The cache key ---------------------------------------------------------------------------

  function Key(r: Ref, revision: string): string
  {
    r.String() + " " + revision
  }

  /** Two requests share a cache key only for one reference and one policy revision, whatever
      characters (spaces included) the repository or the revision holds. */
  lemma KeyInjective(r: Ref, revision: string, r': Ref, revision': string)
    requires WellFormed(r) && WellFormed(r')
    ensures Key(r, revision) == Key(r', revision') <==> r == r' && revision == revision'
  {
    if Key(r, revision) == Key(r', revision') {
      var rest, rest' := r.digest + " " + revision, r'.digest + " " + revision';
      assert Key(r, revision) == r.Name() + ['@'] + rest;
      assert Key(r', revision') == r'.Name() + ['@'] + rest';
      CutAt(r.Name(), '@', rest);
      CutAt(r'.Name(), '@', rest');
      CutAt(r.registry, '/', r.repository);
      CutAt(r'.registry, '/', r'.repository);
      assert rest[..DIGEST_LENGTH] == r.digest && rest'[..DIGEST_LENGTH] == r'.digest;
      assert rest[DIGEST_LENGTH + 1..] == revision && rest'[DIGEST_LENGTH + 1..] == revision';
    }
  }

  // ---- The allow-list --------------------------------------------------------------------------

  /** An entry covers a repository when it equals it or is continued by it with "/". */
  predicate Covers(entry: string, name: string)
  {
    name == entry || HasPrefix(name, TrimSuffix(entry, "/") + "/")
  }

  predicate Allows(entries: seq<string>, r: Ref)
  {
    exists i :: 0 <= i < |entries| && Covers(entries[i], r.Name())
  }

  method CheckAllowed(entries: seq<string>, r: Ref) returns (allowed: bool)
    ensures allowed <==> Allows(entries, r)
  {
    for i := 0 to |entries|
      invariant forall j :: 0 <= j < i ==> !Covers(entries[j], r.Name())
    {
      if Covers(entries[i], r.Name()) {
        return true;
      }
    }
    return false;
  }

  lemma {:induction false} JoinConcat(a: seq<string>, b: seq<string>, sep: string)
    requires a != [] && b != []
    ensures Join(a + b, sep) == Join(a, sep) + sep + Join(b, sep)
  {
    if |a| == 1 {
      assert (a + b)[1..] == b;
    } else {
      JoinConcat(a[1..], b, sep);
      assert (a + b)[1..] == a[1..] + b && (a + b)[0] == a[0];
      Regroup(a[0] + sep, Join(a[1..], sep), sep, Join(b, sep));
    }
  }

  lemma Regroup(a: string, b: string, c: string, d: string)
    ensures a + (b + c + d) == a + b + c + d
  {
  }

  /** Being below an entry is a matter of whole path segments: "host/org" covers "host/org/app" and
      never "host/organisation". */
  lemma CoversBySegments(entry: string, name: string)
    ensures Covers(entry, name) <==>
            name == entry || Split(TrimSuffix(entry, "/"), '/') < Split(name, '/')
  {
    var p := TrimSuffix(entry, "/");
    var ps, ns := Split(p, '/'), Split(name, '/');
    if HasPrefix(name, p + "/") {
      var rest := name[|p| + 1..];
      assert name == p + ['/'] + rest;
      SplitConcat(p, '/', rest);
      assert ns[..|ps|] == ps;
    }
    if ps < ns {
      var rest := ns[|ps|..];
      assert ns == ps + rest;
      JoinSplit(p, '/');
      JoinSplit(name, '/');
      JoinConcat(ps, rest, "/");
      assert name == p + "/" + Join(rest, "/");
      assert p + "/" <= name;
    }
  }

  /** An image is allowed exactly if the path of some entry, a final "/" aside, is the start of its repository's path
      segment by segment, or the entry is the repository. */
  lemma AllowsMeans(entries: seq<string>, r: Ref)
    ensures Allows(entries, r) <==>
            exists i :: 0 <= i < |entries| && (entries[i] == r.registry + "/" + r.repository
                                               || Split(TrimSuffix(entries[i], "/"), '/') < Split(r.registry + "/" + r.repository, '/'))
  {
    forall i | 0 <= i < |entries|
      ensures Covers(entries[i], r.Name()) <==>
                entries[i] == r.registry + "/" + r.repository || Split(TrimSuffix(entries[i], "/"), '/') < Split(r.registry + "/" + r.repository, '/')
    {
      CoversBySegments(entries[i], r.Name());
    }
  }
}
