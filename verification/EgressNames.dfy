/** Names and ownership tokens of a box's egress resources. Texts are their
    UTF-8 encodings, one `char` per byte. */
module EgressNames {

  // ----- Length-framed hash preimages

  const CHAIN_OWNER_DOMAIN := "tinybox-egress-chain-owner-v1\0"

  function Power256(k: nat): nat { if k == 0 then 1 else 256 * Power256(k - 1) }

  /** The low `k` bytes of `n`, most significant first. */
  function BigEndian(n: nat, k: nat): (s: string)
    ensures |s| == k
  {
    if k == 0 then "" else BigEndian(n / 256, k - 1) + [(n % 256) as char]
  }

  function Framed(values: seq<string>): string {
    if values == [] then "" else BigEndian(|values[0]|, 8) + values[0] + Framed(values[1..])
  }

  function ScopePreimage(namespace: string, id: string): string {
    Framed([namespace, id])
  }

  function ChainOwnerPreimage(namespace: string, id: string, attempt: string): string {
    CHAIN_OWNER_DOMAIN + Framed([namespace, id, attempt])
  }

  lemma {:induction false} BigEndianInjective(n: nat, m: nat, k: nat)
    requires n < Power256(k) && m < Power256(k)
    requires BigEndian(n, k) == BigEndian(m, k)
    ensures n == m
  {
    if k > 0 {
      var a, b := BigEndian(n, k), BigEndian(m, k);
      assert a[..k - 1] == BigEndian(n / 256, k - 1) && b[..k - 1] == BigEndian(m / 256, k - 1);
      assert a[k - 1] as int == n % 256 && b[k - 1] as int == m % 256;
      BigEndianInjective(n / 256, m / 256, k - 1);
    }
  }

  /** Every length a 64-bit `usize` can carry. */
  ghost predicate Addressable(values: seq<string>) {
    forall v | v in values :: |v| < Power256(8)
  }

  lemma FrameSplits(u: string, r: string, v: string, s: string)
    requires |u| < Power256(8) && |v| < Power256(8)
    requires BigEndian(|u|, 8) + u + r == BigEndian(|v|, 8) + v + s
    ensures u == v && r == s
  {
    hide Power256, BigEndian;
    var x, y := BigEndian(|u|, 8) + u + r, BigEndian(|v|, 8) + v + s;
    assert x[..8] == BigEndian(|u|, 8) && y[..8] == BigEndian(|v|, 8);
    BigEndianInjective(|u|, |v|, 8);
    var n := |u|;
    assert x[8..8 + n] == u && y[8..8 + n] == v && x[8 + n..] == r && y[8 + n..] == s;
  }

  lemma {:induction false} FramedInjective(a: seq<string>, b: seq<string>)
    requires |a| == |b| && Addressable(a) && Addressable(b)
    requires Framed(a) == Framed(b)
    ensures a == b
    decreases |a|
  {
    if a != [] {
      hide Power256, BigEndian;
      FrameSplits(a[0], Framed(a[1..]), b[0], Framed(b[1..]));
      FramedInjective(a[1..], b[1..]);
      assert a == [a[0]] + a[1..] && b == [b[0]] + b[1..];
    }
  }

  lemma ScopePreimageInjective(n1: string, i1: string, n2: string, i2: string)
    requires Addressable([n1, i1]) && Addressable([n2, i2])
    ensures ScopePreimage(n1, i1) == ScopePreimage(n2, i2) <==> n1 == n2 && i1 == i2
  {
    if ScopePreimage(n1, i1) == ScopePreimage(n2, i2) {
      FramedInjective([n1, i1], [n2, i2]);
      assert [n1, i1][0] == [n2, i2][0] && [n1, i1][1] == [n2, i2][1];
    }
  }

  lemma ChainOwnerPreimageInjective(n1: string, i1: string, a1: string, n2: string, i2: string, a2: string)
    requires Addressable([n1, i1, a1]) && Addressable([n2, i2, a2])
    ensures ChainOwnerPreimage(n1, i1, a1) == ChainOwnerPreimage(n2, i2, a2) <==> n1 == n2 && i1 == i2 && a1 == a2
  {
    var x, y := ChainOwnerPreimage(n1, i1, a1), ChainOwnerPreimage(n2, i2, a2);
    if x == y {
      var k := |CHAIN_OWNER_DOMAIN|;
      assert x[k..] == Framed([n1, i1, a1]) && y[k..] == Framed([n2, i2, a2]);
      FramedInjective([n1, i1, a1], [n2, i2, a2]);
      assert [n1, i1, a1][0] == [n2, i2, a2][0] && [n1, i1, a1][1] == [n2, i2, a2][1] && [n1, i1, a1][2] == [n2, i2, a2][2];
    }
  }

  /** The only namespace length whose frame spells the first eight bytes of
      the chain-owner domain. */
  const DOMAIN_LENGTH: nat := 0x7469_6e79_626f_782d

  lemma DomainFrame()
    ensures BigEndian(DOMAIN_LENGTH, 8) == CHAIN_OWNER_DOMAIN[..8]
    ensures DOMAIN_LENGTH < Power256(8)
  {
    assert BigEndian(0, 0) == "";
    hide BigEndian;
    Digits(0, "", 't', 0x74, "t");
    Digits(0x74, "t", 'i', 0x7469, "ti");
    Digits(0x7469, "ti", 'n', 0x7469_6e, "tin");
    Digits(0x7469_6e, "tin", 'y', 0x7469_6e79, "tiny");
    Digits(0x7469_6e79, "tiny", 'b', 0x7469_6e79_62, "tinyb");
    Digits(0x7469_6e79_62, "tinyb", 'o', 0x7469_6e79_626f, "tinybo");
    Digits(0x7469_6e79_626f, "tinybo", 'x', 0x7469_6e79_626f_78, "tinybox");
    Digits(0x7469_6e79_626f_78, "tinybox", '-', DOMAIN_LENGTH, "tinybox-");
    DomainStart();
    PowerEight();
  }

  lemma DomainStart()
    ensures CHAIN_OWNER_DOMAIN[..8] == "tinybox-"
  {
  }

  lemma PowerEight()
    ensures Power256(8) == 0x1_0000_0000_0000_0000
  {
  }

  /** One more byte at the end. */
  lemma Digits(n: nat, text: string, c: char, n': nat, text': string)
    requires BigEndian(n, |text|) == text && n' == 256 * n + c as int && c as int < 256 && text' == text + [c]
    ensures BigEndian(n', |text'|) == text'
  {
    assert n' / 256 == n && n' % 256 == c as int;
  }

  /** The two token domains are disjoint unless a namespace is exactly
      `DOMAIN_LENGTH` (8.4 * 10^18) bytes long. */
  lemma TokenDomainsDisjoint(n1: string, i1: string, n2: string, i2: string, attempt: string)
    requires |n1| < Power256(8) && |n1| != DOMAIN_LENGTH
    ensures ScopePreimage(n1, i1) != ChainOwnerPreimage(n2, i2, attempt)
  {
    var x, y := ScopePreimage(n1, i1), ChainOwnerPreimage(n2, i2, attempt);
    if x == y {
      assert x[..8] == BigEndian(|n1|, 8);
      assert y[..8] == CHAIN_OWNER_DOMAIN[..8];
      DomainFrame();
      BigEndianInjective(|n1|, DOMAIN_LENGTH, 8);
      assert false;
    }
  }

  lemma FramedThree(a: string, b: string, c: string)
    ensures Framed([a, b, c]) == BigEndian(|a|, 8) + a + BigEndian(|b|, 8) + b + Framed([c])
    ensures Framed([a, c]) == BigEndian(|a|, 8) + a + Framed([c])
  {
    hide BigEndian;
    assert [a, b, c][1..] == [b, c] && [b, c][1..] == [c] && [a, c][1..] == [c];
  }

  /** At that length they do meet: the rest of the owner preimage can be read
      as a namespace followed by the attempt as an id. */
  lemma TokenDomainsMeet(n2: string, i2: string, attempt: string)
    requires |n2| + |i2| + 38 == DOMAIN_LENGTH
    ensures exists n1 :: |n1| == DOMAIN_LENGTH && ScopePreimage(n1, attempt) == ChainOwnerPreimage(n2, i2, attempt)
  {
    DomainLength();
    DomainFrame();
    hide CHAIN_OWNER_DOMAIN, BigEndian, Framed;
    var head, rest := CHAIN_OWNER_DOMAIN[..8], CHAIN_OWNER_DOMAIN[8..];
    var inner := BigEndian(|n2|, 8) + n2 + BigEndian(|i2|, 8) + i2;
    var n1 := rest + inner;
    FramedThree(n2, i2, attempt);
    FramedThree(n1, "", attempt);
    Regroup(head, rest, inner, Framed([attempt]));
    assert CHAIN_OWNER_DOMAIN == head + rest;
    assert ScopePreimage(n1, attempt) == ChainOwnerPreimage(n2, i2, attempt);
  }

  lemma DomainLength()
    ensures |CHAIN_OWNER_DOMAIN| == 30
  {
  }

  lemma Regroup(a: string, b: string, c: string, d: string)
    ensures a + (b + c) + d == a + b + (c + d)
  {
  }

  // ----- Resource names

  /** The hash functions, as far as the names depend on them: a 64-bit hash
      printed as 16 digits and SHA-256 printed as 64 hex digits. */
  datatype Hashes = Hashes(short: (string, string) -> string, sha: string -> string)
  {
    ghost predicate Shaped() {
      && (forall n, i :: |short(n, i)| == 16)
      && (forall x :: |sha(x)| == 64 && HexText(sha(x)))
    }
  }

  predicate HexText(s: string) {
    forall c | c in s :: '0' <= c <= '9' || 'a' <= c <= 'f' || 'A' <= c <= 'F'
  }

  predicate ValidAttempt(attempt: string) { |attempt| == 32 && HexText(attempt) }

  predicate ValidBoxId(id: string) {
    && 1 <= |id| <= 64
    && forall c | c in id :: '0' <= c <= '9' || 'a' <= c <= 'z' || 'A' <= c <= 'Z' || c in "._-"
  }

  datatype Names = Names(
    network: string, bridge: string, forward: string, input: string,
    scope: string, attempt: string, prefix: string, marker: string)

  datatype Identity = Identity(hashes: Hashes, namespace: string, id: string)
  {
    ghost predicate Valid() { hashes.Shaped() && ValidBoxId(id) }

    function Network(): string
      requires Valid()
    {
      "tinybox-egress-" + hashes.short(namespace, id)[..12]
    }

    function Scope(): string { hashes.sha(ScopePreimage(namespace, id)) }

    function ChainPrefix(): string
      requires Valid()
    {
      "TBX" + Scope()[..12]
    }

    function ForAttempt(attempt: string): Names
      requires Valid() && ValidAttempt(attempt)
    {
      Names(
        Network(),
        "tbx" + hashes.short(namespace, id)[..12],
        ChainPrefix() + attempt[..12] + "F",
        ChainPrefix() + attempt[..12] + "I",
        Scope(), attempt, ChainPrefix(),
        hashes.sha(ChainOwnerPreimage(namespace, id, attempt)))
    }
  }

  ghost predicate Injective(sha: string -> string) { forall x, y :: sha(x) == sha(y) ==> x == y }

  ghost predicate Addressed(box: Identity, attempt: string) { Addressable([box.namespace, box.id, attempt]) }

  /** Under a collision-free hash the scope label names one box, and the owner
      marker one attempt of one box. */
  lemma TokensIdentify(b1: Identity, a1: string, b2: Identity, a2: string)
    requires b1.Valid() && b2.Valid() && b1.hashes == b2.hashes && Injective(b1.hashes.sha)
    requires ValidAttempt(a1) && ValidAttempt(a2) && Addressed(b1, a1) && Addressed(b2, a2)
    ensures b1.Scope() == b2.Scope() <==> b1.namespace == b2.namespace && b1.id == b2.id
    ensures b1.ForAttempt(a1).scope == b2.ForAttempt(a2).scope <==> b1.namespace == b2.namespace && b1.id == b2.id
    ensures b1.ForAttempt(a1).marker == b2.ForAttempt(a2).marker <==> b1.namespace == b2.namespace && b1.id == b2.id && a1 == a2
  {
    hide Framed, HexText, Power256;
    var x, y := [b1.namespace, b1.id, a1], [b2.namespace, b2.id, a2];
    assert x[0] in x && x[1] in x && y[0] in y && y[1] in y;
    ScopePreimageInjective(b1.namespace, b1.id, b2.namespace, b2.id);
    ChainOwnerPreimageInjective(b1.namespace, b1.id, a1, b2.namespace, b2.id, a2);
  }

  /** The chain names differ from each other, fit the 28-character limit and
      carry the box's orphan-scan prefix, which no built-in chain starts with. */
  lemma ChainNamesDistinct(box: Identity, attempt: string)
    requires box.Valid() && ValidAttempt(attempt)
    ensures var n := box.ForAttempt(attempt);
            && n.forward != n.input
            && |n.forward| == 28 && |n.input| == 28 && |n.bridge| == 15
            && n.prefix <= n.forward && n.prefix <= n.input
            && n.forward[0] == 'T' && n.input[0] == 'T'
  {
    var n := box.ForAttempt(attempt);
    assert n.forward[27] == 'F' && n.input[27] == 'I';
  }
}
