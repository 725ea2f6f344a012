/**
 The canonical byte stream that identifies the published issuer objects. Texts
 and bodies are byte sequences; the hash itself is a parameter.
 */
module IssuerDigest {
  import opened Ordering

  datatype IssuerObject = IssuerObject(key: string, contentType: string, body: string, objectDigest: string)

  const FORMAT := "self-hosted-oidc/v1"

  function Digit(d: nat): (c: char)
    requires d < 10
    ensures c != '\n'
  {
    '0' + d as char
  }

  /** The %d rendering of a length. */
  function Decimal(n: nat): (s: string)
    ensures s != "" && '\n' !in s
  {
    if n < 10 then [Digit(n)] else Decimal(n / 10) + [Digit(n % 10)]
  }

  /** What writeIssuerObjectDigest feeds to the hash for one object. */
  function ObjectStream(o: IssuerObject): string {
    "format:" + FORMAT + "\nkey:" + o.key + "\ncontent-type:" + o.contentType
    + "\nlength:" + Decimal(|o.body|) + "\n" + o.body + "\n"
  }

  function Stream(objects: seq<IssuerObject>): string {
    if objects == [] then "" else ObjectStream(objects[0]) + Stream(objects[1..])
  }

  predicate Clean(o: IssuerObject) {
    '\n' !in o.key && '\n' !in o.contentType
  }

  /** The part of an object the stream commits to. */
  function Content(o: IssuerObject): (string, string, string) {
    (o.key, o.contentType, o.body)
  }

  function Contents(objects: seq<IssuerObject>): (c: seq<(string, string, string)>)
    ensures |c| == |objects|
    ensures forall i :: 0 <= i < |c| ==> c[i] == Content(objects[i])
  {
    seq(|objects|, i requires 0 <= i < |objects| => Content(objects[i]))
  }

  /** The value a string of decimal digits stands for. */
  function Value(s: string): int {
    if s == "" then 0 else Value(s[..|s| - 1]) * 10 + (s[|s| - 1] as int - '0' as int)
  }

  /** The printed length reads back as the length, with digits only and no leading zero. */
  lemma {:induction false} DecimalReadsBack(n: nat)
    ensures Value(Decimal(n)) == n
    ensures forall i :: 0 <= i < |Decimal(n)| ==> '0' <= Decimal(n)[i] <= '9'
    ensures n > 0 ==> Decimal(n)[0] != '0'
  {
    if n >= 10 {
      DecimalReadsBack(n / 10);
      assert Decimal(n)[..|Decimal(n)| - 1] == Decimal(n / 10);
    }
  }

  lemma {:induction false} DecimalInjective(m: nat, n: nat)
    requires Decimal(m) == Decimal(n)
    ensures m == n
  {
    if m >= 10 && n >= 10 {
      var a, b := Decimal(m / 10), Decimal(n / 10);
      assert a + [Digit(m % 10)] == b + [Digit(n % 10)];
      assert a == (a + [Digit(m % 10)])[..|a|] && |a| == |b|;
      assert b == (b + [Digit(n % 10)])[..|b|];
      assert Digit(m % 10) == (a + [Digit(m % 10)])[|a|] == Digit(n % 10);
      DecimalInjective(m / 10, n / 10);
    }
  }

  /** Equal texts that both end in a newline-free line agree on the line and on what follows it. */
  lemma LineSplits(a: string, x: string, b: string, y: string)
    requires '\n' !in a && '\n' !in b
    requires a + "\n" + x == b + "\n" + y
    ensures a == b && x == y
  {
    var s, t := a + "\n" + x, b + "\n" + y;
    assert s[|a|] == '\n' && t[|b|] == '\n';
    assert a == s[..|a|] && b == t[..|b|];
    assert x == s[|a| + 1..] && y == t[|b| + 1..];
  }

  lemma PrefixStrips(p: string, x: string, y: string)
    requires p + x == p + y
    ensures x == y
  {
    assert x == (p + x)[|p|..] && y == (p + y)[|p|..];
  }

  /** The three parts of an object's stream that follow its key and its content type. */
  function Sized(o: IssuerObject, rest: string): string {
    Decimal(|o.body|) + "\n" + (o.body + "\n" + rest)
  }

  function Typed(o: IssuerObject, rest: string): string {
    o.contentType + "\n" + ("length:" + Sized(o, rest))
  }

  function Keyed(o: IssuerObject, rest: string): string {
    o.key + "\n" + ("content-type:" + Typed(o, rest))
  }

  lemma StreamParts(o: IssuerObject, rest: string)
    ensures ObjectStream(o) + rest == "format:" + FORMAT + "\nkey:" + Keyed(o, rest)
  {
  }

  /** One object's stream ends where it says it ends, whatever its body holds and whatever follows. */
  lemma ObjectSplits(a: IssuerObject, x: string, b: IssuerObject, y: string)
    requires Clean(a) && Clean(b)
    requires ObjectStream(a) + x == ObjectStream(b) + y
    ensures Content(a) == Content(b) && x == y
  {
    StreamParts(a, x);
    StreamParts(b, y);
    PrefixStrips("format:" + FORMAT + "\nkey:", Keyed(a, x), Keyed(b, y));
    LineSplits(a.key, "content-type:" + Typed(a, x), b.key, "content-type:" + Typed(b, y));
    PrefixStrips("content-type:", Typed(a, x), Typed(b, y));
    LineSplits(a.contentType, "length:" + Sized(a, x), b.contentType, "length:" + Sized(b, y));
    PrefixStrips("length:", Sized(a, x), Sized(b, y));
    LineSplits(Decimal(|a.body|), a.body + "\n" + x, Decimal(|b.body|), b.body + "\n" + y);
    DecimalInjective(|a.body|, |b.body|);
    assert a.body == (a.body + "\n" + x)[..|a.body|] && b.body == (b.body + "\n" + y)[..|b.body|];
    assert x == (a.body + "\n" + x)[|a.body| + 1..] && y == (b.body + "\n" + y)[|b.body| + 1..];
  }

  /** The stream is uniquely decodable. */
  lemma {:induction false} StreamInjective(a: seq<IssuerObject>, b: seq<IssuerObject>)
    requires forall o :: o in a || o in b ==> Clean(o)
    requires Stream(a) == Stream(b)
    ensures Contents(a) == Contents(b)
  {
    if a != [] && b != [] {
      ObjectSplits(a[0], Stream(a[1..]), b[0], Stream(b[1..]));
      StreamInjective(a[1..], b[1..]);
      forall i | 0 <= i < |a| ensures |a| == |b| && Content(a[i]) == Content(b[i]) {
        if i > 0 {
          assert Contents(a[1..])[i - 1] == Contents(b[1..])[i - 1];
        }
      }
    }
  }

  // ------------------------------------------------------------ the object set

  ghost predicate SortedByKey(s: seq<IssuerObject>) {
    forall i, j :: 0 <= i < j < |s| ==> Leq(s[i].key, s[j].key)
  }

  /** Sorted means ascending byte by byte. */
  lemma SortedAscends(s: seq<IssuerObject>, i: nat, j: nat)
    requires SortedByKey(s) && i < j < |s|
    ensures s[i].key <= s[j].key || exists d: nat :: DiffersBelow(s[i].key, s[j].key, d)
  {
    LeqIff(s[i].key, s[j].key);
  }

  /** No two of the objects share a key. */
  ghost predicate DistinctKeys(m: multiset<IssuerObject>) {
    && (forall o :: o in m ==> m[o] == 1)
    && (forall o, p :: o in m && p in m && o.key == p.key ==> o == p)
  }

  /** s is an arrangement of `objects` sorted by key, with this stream. */
  ghost predicate Arranges(objects: seq<IssuerObject>, s: seq<IssuerObject>, stream: string) {
    multiset(s) == multiset(objects) && SortedByKey(s) && stream == Stream(s)
  }

  /** A possible argument of the set hash: the stream of some arrangement of `objects` sorted by key. */
  ghost predicate IsSetStream(objects: seq<IssuerObject>, stream: string) {
    exists s :: Arranges(objects, s, stream)
  }

  lemma SameElements(a: seq<IssuerObject>, b: seq<IssuerObject>)
    requires multiset(a) == multiset(b)
    ensures |a| == |b|
    ensures forall o :: o in a <==> o in b
  {
    assert |multiset(a)| == |a| && |multiset(b)| == |b|;
    assert forall o :: o in a <==> o in multiset(a);
    assert forall o :: o in b <==> o in multiset(b);
  }

  lemma HeadIsLeast(s: seq<IssuerObject>, o: IssuerObject)
    requires SortedByKey(s) && o in s
    ensures Leq(s[0].key, o.key)
  {
    LeqTotal(o.key, o.key);
  }

  lemma TailOf(s: seq<IssuerObject>)
    requires s != [] && SortedByKey(s)
    ensures SortedByKey(s[1..]) && multiset(s[1..]) == multiset(s) - multiset{s[0]}
    ensures DistinctKeys(multiset(s)) ==> DistinctKeys(multiset(s[1..]))
  {
    assert s == [s[0]] + s[1..];
  }

  lemma HeadAndTail(a: seq<IssuerObject>, b: seq<IssuerObject>)
    requires a != [] && b != [] && a[0] == b[0] && a[1..] == b[1..]
    ensures a == b
  {
    assert a == [a[0]] + a[1..] && b == [b[0]] + b[1..];
  }

  lemma SameHead(a: seq<IssuerObject>, b: seq<IssuerObject>)
    requires multiset(a) == multiset(b) && DistinctKeys(multiset(a))
    requires SortedByKey(a) && SortedByKey(b) && a != []
    ensures b != [] && a[0] == b[0]
  {
    SameElements(a, b);
    HeadIsLeast(a, b[0]);
    HeadIsLeast(b, a[0]);
    LeqAntisymmetric(a[0].key, b[0].key);
    assert a[0] in multiset(a) && b[0] in multiset(a);
  }

  /** With distinct keys there is only one sorted arrangement. */
  lemma {:induction false} SortedIsUnique(a: seq<IssuerObject>, b: seq<IssuerObject>)
    requires multiset(a) == multiset(b) && DistinctKeys(multiset(a))
    requires SortedByKey(a) && SortedByKey(b)
    ensures a == b
    decreases |a|
  {
    if a == [] {
      SameElements(a, b);
    } else {
      SameHead(a, b);
      TailOf(a);
      TailOf(b);
      SortedIsUnique(a[1..], b[1..]);
      HeadAndTail(a, b);
    }
  }

  /** For distinct keys the set hash sees the same bytes for every order of the input. */
  lemma SetStreamIgnoresOrder(a: seq<IssuerObject>, b: seq<IssuerObject>, x: string, y: string)
    requires multiset(a) == multiset(b) && DistinctKeys(multiset(a))
    requires IsSetStream(a, x) && IsSetStream(b, y)
    ensures x == y
  {
    var s :| Arranges(a, s, x);
    var t :| Arranges(b, t, y);
    SortedIsUnique(s, t);
  }

  /** All objects are clean, and the content settles the object. */
  ghost predicate Readable(a: seq<IssuerObject>, b: seq<IssuerObject>) {
    && (forall o :: o in a || o in b ==> Clean(o))
    && (forall o, p :: o in a && p in b && Content(o) == Content(p) ==> o == p)
  }

  lemma ContentsDetermine(s: seq<IssuerObject>, t: seq<IssuerObject>)
    requires Contents(s) == Contents(t)
    requires forall o, p :: o in s && p in t && Content(o) == Content(p) ==> o == p
    ensures s == t
  {
    forall i | 0 <= i < |s| ensures |s| == |t| && s[i] == t[i] {
      assert Contents(s)[i] == Contents(t)[i];
      assert s[i] in s && t[i] in t;
    }
  }

  lemma EqualStreamsEqualSets(a: seq<IssuerObject>, b: seq<IssuerObject>, x: string)
    requires Readable(a, b)
    requires IsSetStream(a, x) && IsSetStream(b, x)
    ensures multiset(a) == multiset(b)
  {
    var s :| Arranges(a, s, x);
    var t :| Arranges(b, t, x);
    StreamSettlesArrangement(a, b, s, t, x);
  }

  lemma StreamSettlesArrangement(a: seq<IssuerObject>, b: seq<IssuerObject>, s: seq<IssuerObject>,
                                 t: seq<IssuerObject>, x: string)
    requires Readable(a, b)
    requires Arranges(a, s, x) && Arranges(b, t, x)
    ensures s == t
  {
    SameElements(s, a);
    SameElements(t, b);
    StreamInjective(s, t);
    ContentsDetermine(s, t);
  }

  /**
   Two sets of objects with distinct keys produce the same bytes exactly when
   they hold the same objects; the digest field, which the stream leaves out,
   is taken to be settled by the rest, as it is before and after rendering.
   */
  lemma SetStreamIdentifies(a: seq<IssuerObject>, b: seq<IssuerObject>, x: string, y: string)
    requires Readable(a, b)
    requires DistinctKeys(multiset(a))
    requires IsSetStream(a, x) && IsSetStream(b, y)
    ensures x == y <==> multiset(a) == multiset(b)
  {
    if x == y {
      EqualStreamsEqualSets(a, b, x);
    } else if multiset(a) == multiset(b) {
      SetStreamIgnoresOrder(a, b, x, y);
    }
  }

  const DISCOVERY_OBJECT_KEY := ".well-known/openid-configuration"
  const JWKS_OBJECT_KEY := "keys.json"

  /** The two objects of every publication are hashed discovery document first, in whatever order they come. */
  lemma PublicationStream(a: seq<IssuerObject>, discovery: IssuerObject, jwks: IssuerObject, x: string)
    requires a == [discovery, jwks] || a == [jwks, discovery]
    requires discovery.key == DISCOVERY_OBJECT_KEY && jwks.key == JWKS_OBJECT_KEY
    requires IsSetStream(a, x)
    ensures x == ObjectStream(discovery) + ObjectStream(jwks)
  {
    var s :| Arranges(a, s, x);
    TwoInOrder(discovery, jwks);
    assert multiset(a) == multiset{discovery, jwks};
    SortedIsUnique(s, [discovery, jwks]);
    StreamOfTwo(discovery, jwks);
  }

  lemma TwoInOrder(discovery: IssuerObject, jwks: IssuerObject)
    requires discovery.key == DISCOVERY_OBJECT_KEY && jwks.key == JWKS_OBJECT_KEY
    ensures SortedByKey([discovery, jwks]) && multiset([discovery, jwks]) == multiset{discovery, jwks}
    ensures DistinctKeys(multiset{discovery, jwks})
  {
    assert DISCOVERY_OBJECT_KEY[0] == '.' && JWKS_OBJECT_KEY[0] == 'k';
    assert Leq(discovery.key, jwks.key) && discovery.key != jwks.key;
  }

  lemma StreamOfTwo(a: IssuerObject, b: IssuerObject)
    ensures Stream([a, b]) == ObjectStream(a) + ObjectStream(b)
  {
    assert [a, b][1..] == [b] && [b][1..] == [];
    assert Stream([b]) == ObjectStream(b) + Stream([]);
  }

  /** The bytes of one object, with the format written out. */
  lemma ObjectStreamIs(o: IssuerObject)
    ensures ObjectStream(o) ==
            "format:self-hosted-oidc/v1\nkey:" + o.key + "\ncontent-type:" + o.contentType
            + "\nlength:" + Decimal(|o.body|) + "\n" + o.body + "\n"
  {
    assert "format:" + "self-hosted-oidc/v1" + "\nkey:" == "format:self-hosted-oidc/v1\nkey:";
  }

  // ------------------------------------------------------------- the digesting

  /** A hash that has been fed `written`. */
  class Hash {
    var written: string

    constructor ()
      ensures written == ""
    {
      written := "";
    }

    method Write(p: string)
      modifies this
      ensures written == old(written) + p
    {
      written := written + p;
    }
  }

  method WriteIssuerObjectDigest(h: Hash, o: IssuerObject)
    modifies h
    ensures h.written == old(h.written) + ObjectStream(o)
  {
    h.Write("format:" + FORMAT + "\nkey:" + o.key + "\ncontent-type:" + o.contentType
            + "\nlength:" + Decimal(|o.body|) + "\n");
    h.Write(o.body);
    h.Write("\n");
  }

  method ComputeIssuerObjectDigest(o: IssuerObject, sum: string -> string) returns (digest: string)
    ensures digest == "sha256:" + sum(ObjectStream(o))
  {
    var h := new Hash();
    WriteIssuerObjectDigest(h, o);
    assert h.written == ObjectStream(o);
    digest := "sha256:" + sum(h.written);
  }

  method InsertByKey(s: seq<IssuerObject>, o: IssuerObject) returns (t: seq<IssuerObject>)
    requires SortedByKey(s)
    ensures SortedByKey(t) && multiset(t) == multiset(s) + multiset{o}
  {
    var i := |s|;
    while i > 0 && !Leq(s[i - 1].key, o.key)
      invariant 0 <= i <= |s|
      invariant forall j :: i <= j < |s| ==> Leq(o.key, s[j].key)
    {
      LeqTotal(o.key, s[i - 1].key);
      i := i - 1;
    }
    t := s[..i] + [o] + s[i..];
    InsertedIsSorted(s, o, i);
    InsertedElements(s, o, i);
  }

  lemma InsertedElements(s: seq<IssuerObject>, o: IssuerObject, i: nat)
    requires i <= |s|
    ensures multiset(s[..i] + [o] + s[i..]) == multiset(s) + multiset{o}
  {
    assert s == s[..i] + s[i..];
  }

  lemma InsertedIsSorted(s: seq<IssuerObject>, o: IssuerObject, i: nat)
    requires SortedByKey(s) && i <= |s|
    requires i > 0 ==> Leq(s[i - 1].key, o.key)
    requires forall j :: i <= j < |s| ==> Leq(o.key, s[j].key)
    ensures SortedByKey(s[..i] + [o] + s[i..])
  {
    forall j | 0 <= j < i ensures Leq(s[j].key, o.key) {
      if j < i - 1 {
        LeqTransitive(s[j].key, s[i - 1].key, o.key);
      }
    }
  }

  method SortByKey(objects: seq<IssuerObject>) returns (sorted: seq<IssuerObject>)
    ensures multiset(sorted) == multiset(objects) && SortedByKey(sorted)
  {
    sorted := [];
    for i := 0 to |objects|
      invariant multiset(sorted) == multiset(objects[..i]) && SortedByKey(sorted)
    {
      assert objects[..i + 1] == objects[..i] + [objects[i]];
      sorted := InsertByKey(sorted, objects[i]);
    }
    assert objects[..|objects|] == objects;
  }

  lemma {:induction false} StreamAppends(s: seq<IssuerObject>, o: IssuerObject)
    ensures Stream(s + [o]) == Stream(s) + ObjectStream(o)
  {
    if s == [] {
      assert [o][1..] == [];
      assert [] + [o] == [o];
    } else {
      assert (s + [o])[1..] == s[1..] + [o];
      StreamAppends(s[1..], o);
    }
  }

  /** `digest` is the hash of a set stream of the objects. */
  ghost predicate IsSetDigest(objects: seq<IssuerObject>, sum: string -> string, digest: string) {
    exists stream :: IsSetStream(objects, stream) && digest == "sha256:" + sum(stream)
  }

  /** For distinct keys the set digest does not depend on the order of the objects. */
  lemma SetDigestIgnoresOrder(a: seq<IssuerObject>, b: seq<IssuerObject>, sum: string -> string, d: string, e: string)
    requires multiset(a) == multiset(b) && DistinctKeys(multiset(a))
    requires IsSetDigest(a, sum, d) && IsSetDigest(b, sum, e)
    ensures d == e
  {
    var x :| IsSetStream(a, x) && d == "sha256:" + sum(x);
    var y :| IsSetStream(b, y) && e == "sha256:" + sum(y);
    SetStreamIgnoresOrder(a, b, x, y);
  }

  method ComputeIssuerObjectSetDigest(objects: seq<IssuerObject>, sum: string -> string)
    returns (digest: string)
    ensures IsSetDigest(objects, sum, digest)
  {
    var sorted := SortByKey(objects);
    var h := new Hash();
    for i := 0 to |sorted|
      invariant h.written == Stream(sorted[..i])
    {
      assert sorted[..i + 1] == sorted[..i] + [sorted[i]];
      StreamAppends(sorted[..i], sorted[i]);
      WriteIssuerObjectDigest(h, sorted[i]);
    }
    assert sorted[..|sorted|] == sorted;
    assert Arranges(objects, sorted, h.written);
    digest := "sha256:" + sum(h.written);
  }

  /** RenderIssuerPublication's digest part: digests are filled in place, contents stay. */
  method DigestPublication(objects: array<IssuerObject>, sum: string -> string)
    returns (setDigest: string)
    modifies objects
    ensures Contents(objects[..]) == old(Contents(objects[..]))
    ensures forall i :: 0 <= i < objects.Length ==>
              objects[i].objectDigest == "sha256:" + sum(ObjectStream(objects[i]))
    ensures IsSetDigest(objects[..], sum, setDigest)
  {
    for i := 0 to objects.Length
      invariant forall j :: 0 <= j < objects.Length ==> Content(objects[j]) == old(Content(objects[j]))
      invariant forall j :: 0 <= j < i ==>
                  objects[j].objectDigest == "sha256:" + sum(ObjectStream(objects[j]))
    {
      var digest := ComputeIssuerObjectDigest(objects[i], sum);
      objects[i] := objects[i].(objectDigest := digest);
    }
    setDigest := ComputeIssuerObjectSetDigest(objects[..], sum);
  }
}
