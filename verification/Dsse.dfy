/**
 The DSSE v1 pre-authentication encoding that attestation signatures are computed over.
 */
module Dsse {

  /** A byte string; every character stands for one byte. */
  type Bytes = string

  const SPACE := ' '

  const MAGIC: Bytes := "DSSEv1 "

  /** `%d` of a length. */
  function Decimal(n: nat): (d: Bytes)
    ensures |d| >= 1
    ensures SPACE !in d
  {
    if n < 10 then [Digit(n)] else Decimal(n / 10) + [Digit(n % 10)]
  }

  function Digit(n: nat): (c: char)
    requires n < 10
    ensures c != SPACE
    ensures c as int == '0' as int + n
  {
    ('0' as int + n) as char
  }

  function Pae(payloadType: Bytes, payload: Bytes): Bytes
  {
    MAGIC + Field(payloadType) + [SPACE] + Field(payload)
  }

  /** A length, a space and that many bytes. */
  function Field(content: Bytes): Bytes
  {
    Decimal(|content|) + [SPACE] + content
  }

  lemma {:induction false} DecimalInjective(m: nat, n: nat)
    requires Decimal(m) == Decimal(n)
    ensures m == n
  {
    if m < 10 && n < 10 {
    } else if m >= 10 && n >= 10 {
      var dm, dn := Decimal(m / 10), Decimal(n / 10);
      assert Decimal(m)[..|Decimal(m)| - 1] == dm;
      assert Decimal(n)[..|Decimal(n)| - 1] == dn;
      assert Decimal(m)[|dm|] == Decimal(n)[|dn|];
      DecimalInjective(m / 10, n / 10);
    } else {
    }
  }

  /** The first space ends the first token, also under a longer text. */
  lemma TokenPrefix(d: Bytes, r: Bytes, d': Bytes, r': Bytes)
    requires SPACE !in d && SPACE !in d'
    requires d + [SPACE] + r <= d' + [SPACE] + r'
    ensures d == d' && r <= r'
  {
    var s, s' := d + [SPACE] + r, d' + [SPACE] + r';
    assert s[|d|] == SPACE && s'[|d|] == SPACE && s'[|d'|] == SPACE;
    assert |d| == |d'|;
    assert s[..|d|] == s'[..|d|] && s[..|d|] == d && s'[..|d|] == d';
    assert s[|d| + 1..] == r && s'[|d| + 1..] == r';
    assert s == s'[..|s|];
    assert r == r'[..|r|];
  }

  /** One length-prefixed field under a longer text is that text's first field. */
  lemma FieldPrefix(c: Bytes, r: Bytes, c': Bytes, r': Bytes)
    requires Field(c) + r <= Field(c') + r'
    ensures c == c' && r <= r'
  {
    var d, d' := Decimal(|c|), Decimal(|c'|);
    assert Field(c) + r == d + [SPACE] + (c + r);
    assert Field(c') + r' == d' + [SPACE] + (c' + r');
    TokenPrefix(d, c + r, d', c' + r');
    DecimalInjective(|c|, |c'|);
    var s, s' := c + r, c' + r';
    assert s == s'[..|s|];
    assert c == s[..|c|] == s'[..|c|] == c';
    assert r == s[|c|..] && r' == s'[|c|..];
    assert r == r'[..|r|];
  }

  /** No encoding is a proper prefix of another one. */
  lemma PaePrefixFree(t: Bytes, p: Bytes, t': Bytes, p': Bytes)
    requires Pae(t, p) <= Pae(t', p')
    ensures t == t' && p == p'
  {
    var rest, rest' := [SPACE] + Field(p), [SPACE] + Field(p');
    var tail, tail' := Field(t) + rest, Field(t') + rest';
    assert Pae(t, p) == MAGIC + tail && Pae(t', p') == MAGIC + tail';
    assert tail == Pae(t, p)[|MAGIC|..] && tail' == Pae(t', p')[|MAGIC|..];
    assert tail == tail'[..|tail|];
    FieldPrefix(t, rest, t', rest');
    assert Field(p) == rest[1..] && Field(p') == rest'[1..];
    assert Field(p) + [] == Field(p) && Field(p') + [] == Field(p');
    assert rest == rest'[..|rest|];
    assert Field(p) == Field(p')[..|Field(p)|];
    FieldPrefix(p, [], p', []);
  }

  /** Equal encodings come from equal payload types and equal payloads. */
  lemma PaeInjective(t: Bytes, p: Bytes, t': Bytes, p': Bytes)
    ensures Pae(t, p) == Pae(t', p') <==> t == t' && p == p'
  {
    if Pae(t, p) == Pae(t', p') {
      PaePrefixFree(t, p, t', p');
    }
  }

  /** The encoding written out, for a type and a payload with lengths of two digits: as in the protocol's own example,
      "DSSEv1 29 http://example.com/HelloWorld 11 hello world". */
  lemma PaeWritten(t: Bytes, p: Bytes, n: Bytes, m: Bytes)
    requires 10 <= |t| < 100 && 10 <= |p| < 100
    requires n == [('0' as int + |t| / 10) as char, ('0' as int + |t| % 10) as char]
    requires m == [('0' as int + |p| / 10) as char, ('0' as int + |p| % 10) as char]
    ensures Pae(t, p) == "DSSEv1 " + n + " " + t + " " + m + " " + p
  {
    DecimalTwo(|t|);
    DecimalTwo(|p|);
  }

  lemma DecimalTwo(n: nat)
    requires 10 <= n < 100
    ensures Decimal(n) == [('0' as int + n / 10) as char, ('0' as int + n % 10) as char]
  {
    assert Decimal(n / 10) == [Digit(n / 10)];
  }
}
