/**
 Deterministic names of operator-owned AWS resources. Lower-casing of one
 character (`lower`) and the hexadecimal SHA-256 of a text (`sum`) are
 parameters: what is proved holds for every choice of them.
 */
module ResourceNames {

  const NAME_PREFIX := "awi"
  const SUFFIX_HEX_CHARS := 10
  const DNS_NAME_LIMIT := 63
  const IAM_NAME_LIMIT := 64
  const IAM_POLICY_LIMIT := 128

  predicate Alnum(c: char) {
    'a' <= c <= 'z' || '0' <= c <= '9'
  }

  predicate DnsChar(c: char) {
    Alnum(c) || c == '-'
  }

  predicate AllAlnum(s: string) {
    forall i :: 0 <= i < |s| ==> Alnum(s[i])
  }

  predicate AllDns(s: string) {
    forall i :: 0 <= i < |s| ==> DnsChar(s[i])
  }

  /** The pattern ^[a-z0-9]([-a-z0-9]*[a-z0-9])?$ of the API types. */
  predicate DnsLabel(s: string) {
    s != "" && AllDns(s) && Alnum(s[0]) && Alnum(s[|s| - 1])
  }

  /** `sum` renders 32 bytes in lower-case hexadecimal. */
  ghost predicate IsHexSum(sum: string -> string) {
    forall x :: |sum(x)| == 64 && forall i :: 0 <= i < 64 ==> Alnum(sum(x)[i])
  }

  function Lowered(s: string, lower: char -> char): string {
    seq(|s|, i requires 0 <= i < |s| => lower(s[i]))
  }

  function SkipUnsafe(s: string): (t: string)
    ensures |t| <= |s|
  {
    if s != "" && !DnsChar(s[0]) then SkipUnsafe(s[1..]) else s
  }

  /** Replaces every maximal run of characters outside [a-z0-9-] by one hyphen. */
  function ReplaceUnsafe(s: string): (t: string)
    ensures AllDns(t)
    decreases |s|
  {
    if s == "" then ""
    else if DnsChar(s[0]) then [s[0]] + ReplaceUnsafe(s[1..])
    else "-" + ReplaceUnsafe(SkipUnsafe(s[1..]))
  }

  function TrimLeft(s: string): (t: string)
    ensures AllDns(s) ==> AllDns(t)
    ensures |t| <= |s|
    ensures t != "" ==> t[0] != '-' && t[|t| - 1] == s[|s| - 1]
  {
    if s != "" && s[0] == '-' then TrimLeft(s[1..]) else s
  }

  function TrimRight(s: string): (t: string)
    ensures t <= s
    ensures t != "" ==> t[|t| - 1] != '-'
    ensures forall i :: |t| <= i < |s| ==> s[i] == '-'
  {
    if s != "" && s[|s| - 1] == '-' then TrimRight(s[..|s| - 1]) else s
  }

  function SafeDnsPart(s: string, lower: char -> char): (r: string)
    ensures DnsLabel(r)
  {
    var t := TrimRight(TrimLeft(ReplaceUnsafe(Lowered(s, lower))));
    if t == "" then "x" else t
  }

  lemma {:induction false} SafeCharsStay(s: string)
    requires AllDns(s)
    ensures ReplaceUnsafe(s) == s
  {
    if s != "" {
      SafeCharsStay(s[1..]);
      assert s == [s[0]] + s[1..];
    }
  }

  /** Labels pass unchanged. */
  lemma SafeDnsPartKeepsLabels(s: string, lower: char -> char)
    requires DnsLabel(s) && forall c :: DnsChar(c) ==> lower(c) == c
    ensures SafeDnsPart(s, lower) == s
  {
    assert Lowered(s, lower) == s;
    SafeCharsStay(s);
  }

  /** Sanitizing twice is sanitizing once, for every input. */
  lemma SafeDnsPartIsIdempotent(s: string, lower: char -> char)
    requires forall c :: DnsChar(c) ==> lower(c) == c
    ensures SafeDnsPart(SafeDnsPart(s, lower), lower) == SafeDnsPart(s, lower)
  {
    SafeDnsPartKeepsLabels(SafeDnsPart(s, lower), lower);
  }

  predicate AllUnsafe(s: string) {
    forall i :: 0 <= i < |s| ==> !DnsChar(s[i])
  }

  lemma {:induction false} ReplaceKeepsSafePrefix(a: string, rest: string)
    requires AllDns(a)
    ensures ReplaceUnsafe(a + rest) == a + ReplaceUnsafe(rest)
  {
    if a == "" {
      assert a + rest == rest;
    } else {
      assert (a + rest)[1..] == a[1..] + rest;
      ReplaceKeepsSafePrefix(a[1..], rest);
    }
  }

  lemma {:induction false} SkipsRun(u: string, rest: string)
    requires AllUnsafe(u) && (rest == "" || DnsChar(rest[0]))
    ensures SkipUnsafe(u + rest) == rest
  {
    if u == "" {
      assert u + rest == rest;
    } else {
      assert (u + rest)[1..] == u[1..] + rest;
      SkipsRun(u[1..], rest);
    }
  }

  lemma ReplacesRun(a: string, u: string, b: string)
    requires AllDns(a) && DnsLabel(b) && u != "" && AllUnsafe(u)
    ensures ReplaceUnsafe(a + (u + b)) == a + ("-" + b)
  {
    ReplaceKeepsSafePrefix(a, u + b);
    assert (u + b)[0] == u[0] && (u + b)[1..] == u[1..] + b;
    SkipsRun(u[1..], b);
    SafeCharsStay(b);
  }

  /** A run of unsafe characters between two labels becomes one hyphen. */
  lemma UnsafeRunIsHyphen(a: string, u: string, b: string, lower: char -> char)
    requires DnsLabel(a) && DnsLabel(b) && u != "" && AllUnsafe(u)
    requires Lowered(a + (u + b), lower) == a + (u + b)
    ensures SafeDnsPart(a + (u + b), lower) == a + "-" + b
  {
    ReplacesRun(a, u, b);
    assert a + ("-" + b) == a + "-" + b;
    HyphenJoins(a, b);
  }

  /** Unsafe characters alone, or nothing at all, become the placeholder. */
  lemma NothingSafeIsX(u: string, lower: char -> char)
    requires AllUnsafe(u) && forall i :: 0 <= i < |u| ==> lower(u[i]) == u[i]
    ensures SafeDnsPart(u, lower) == "x"
  {
    assert Lowered(u, lower) == u;
    if u != "" {
      SkipsRun(u[1..], "");
      assert u[1..] + "" == u[1..];
      assert ReplaceUnsafe(u) == "-" + ReplaceUnsafe("") == "-";
    }
  }

  function Join(parts: seq<string>, sep: char): string {
    if parts == [] then ""
    else if |parts| == 1 then parts[0]
    else parts[0] + [sep] + Join(parts[1..], sep)
  }

  function Suffix(parts: seq<string>, sum: string -> string): (tail: string)
    requires IsHexSum(sum)
    ensures |tail| == SUFFIX_HEX_CHARS && AllAlnum(tail)
  {
    sum(Join(parts, '/'))[..SUFFIX_HEX_CHARS]
  }

  /** The base, cut so that a hyphen and the tail still fit. */
  function Bounded(base: string, limit: nat, tail: string): string
    requires limit > |tail|
  {
    var full := base + "-" + tail;
    if |full| <= limit then full
    else TrimRight(full[..limit - |tail| - 1]) + "-" + tail
  }

  function BoundedName(base: string, limit: nat, suffixParts: seq<string>, sum: string -> string): string
    requires IsHexSum(sum) && limit > SUFFIX_HEX_CHARS
  {
    Bounded(base, limit, Suffix(suffixParts, sum))
  }

  function SafeParts(parts: seq<string>, lower: char -> char): (r: seq<string>)
    ensures forall i :: 0 <= i < |r| ==> DnsLabel(r[i])
  {
    if parts == [] then [] else [SafeDnsPart(parts[0], lower)] + SafeParts(parts[1..], lower)
  }

  function JoinedBase(kind: string, parts: seq<string>, lower: char -> char): string {
    Join([NAME_PREFIX] + (if kind == "" then [] else [kind]) + SafeParts(parts, lower), '-')
  }

  lemma {:induction false} SafePartsAppends(parts: seq<string>, p: string, lower: char -> char)
    ensures SafeParts(parts + [p], lower) == SafeParts(parts, lower) + [SafeDnsPart(p, lower)]
  {
    if parts == [] {
      assert [] + [p] == [p];
    } else {
      assert (parts + [p])[1..] == parts[1..] + [p];
      SafePartsAppends(parts[1..], p, lower);
    }
  }

  method ComputeJoinedBase(kind: string, parts: seq<string>, lower: char -> char) returns (base: string)
    ensures base == JoinedBase(kind, parts, lower)
  {
    var segments := [NAME_PREFIX];
    if kind != "" {
      segments := segments + [kind];
    }
    ghost var head := [NAME_PREFIX] + (if kind == "" then [] else [kind]);
    assert SafeParts(parts[..0], lower) == [];
    assert segments == head + [];
    for i := 0 to |parts|
      invariant segments == head + SafeParts(parts[..i], lower)
    {
      assert parts[..i + 1] == parts[..i] + [parts[i]];
      SafePartsAppends(parts[..i], parts[i], lower);
      ghost var done := SafeParts(parts[..i], lower);
      assert (head + done) + [SafeDnsPart(parts[i], lower)] == head + (done + [SafeDnsPart(parts[i], lower)]);
      segments := segments + [SafeDnsPart(parts[i], lower)];
    }
    assert parts[..|parts|] == parts;
    base := Join(segments, '-');
  }

  function BucketName(namespace: string, region: string, lower: char -> char, sum: string -> string): string
    requires IsHexSum(sum)
  {
    BoundedName(JoinedBase("", [namespace, region], lower), DNS_NAME_LIMIT, [namespace, region], sum)
  }

  function RoleName(uid: string, namespace: string, name: string, lower: char -> char, sum: string -> string): string
    requires IsHexSum(sum)
  {
    BoundedName(JoinedBase("", [namespace, name], lower), IAM_NAME_LIMIT, [uid, namespace, name], sum)
  }

  function PolicyName(uid: string, namespace: string, name: string, lower: char -> char, sum: string -> string): string
    requires IsHexSum(sum)
  {
    BoundedName(JoinedBase("pol", [namespace, name], lower), IAM_POLICY_LIMIT,
                [uid, "policy", namespace, name], sum)
  }

  function OwnerLabelValue(namespace: string, name: string, lower: char -> char, sum: string -> string): string
    requires IsHexSum(sum)
  {
    BoundedName(SafeDnsPart(namespace, lower) + "-" + SafeDnsPart(name, lower), DNS_NAME_LIMIT,
                [namespace, name], sum)
  }

  // ------------------------------------------------------------------- shape

  lemma {:induction false} JoinedLabels(parts: seq<string>)
    requires parts != [] && forall i :: 0 <= i < |parts| ==> DnsLabel(parts[i])
    ensures DnsLabel(Join(parts, '-'))
  {
    if |parts| > 1 {
      JoinedLabels(parts[1..]);
      var rest := Join(parts[1..], '-');
      var whole := parts[0] + "-" + rest;
      assert whole[|whole| - 1] == rest[|rest| - 1];
    }
  }

  lemma JoinedBaseIsLabel(kind: string, parts: seq<string>, lower: char -> char)
    requires kind == "" || DnsLabel(kind)
    ensures DnsLabel(JoinedBase(kind, parts, lower))
  {
    JoinedLabels([NAME_PREFIX] + (if kind == "" then [] else [kind]) + SafeParts(parts, lower));
  }

  /**
   A bounded name fits its limit, is a label, and ends in a hyphen and the full
   tail. Before them stands as much of the base as fits, less only the hyphens
   at the cut.
   */
  lemma BoundedShape(base: string, limit: nat, tail: string)
    requires tail != "" && AllAlnum(tail) && limit > |tail| + 1
    requires DnsLabel(base)
    ensures var name := Bounded(base, limit, tail);
            && |name| <= limit
            && DnsLabel(name)
            && |name| > |tail| + 1
            && name[|name| - |tail|..] == tail
            && name[|name| - |tail| - 1] == '-'
            && name[..|name| - |tail| - 1] <= base
            && forall i :: |name| - |tail| - 1 <= i < |base| && i < limit - |tail| - 1 ==> base[i] == '-'
  {
    if |base| + 1 + |tail| > limit {
      var k := limit - |tail| - 1;
      CutIs(base, tail, limit);
      Truncated(base, k);
      Hyphenated(TrimRight(base[..k]), tail);
    } else {
      Hyphenated(base, tail);
    }
  }

  lemma CutIs(base: string, tail: string, limit: nat)
    requires limit > |tail| + 1 && |base| + 1 + |tail| > limit
    ensures Bounded(base, limit, tail) == TrimRight(base[..limit - |tail| - 1]) + "-" + tail
  {
    var k := limit - |tail| - 1;
    assert (base + "-" + tail)[..k] == base[..k];
  }

  lemma Truncated(base: string, k: nat)
    requires DnsLabel(base) && 0 < k < |base|
    ensures var prefix := TrimRight(base[..k]);
            && prefix != "" && prefix <= base && AllDns(prefix) && Alnum(prefix[0])
            && |prefix| <= k
            && forall i :: |prefix| <= i < k ==> base[i] == '-'
  {
    var cut := base[..k];
    var prefix := TrimRight(cut);
    assert cut[0] == base[0];
    assert forall i :: |prefix| <= i < k ==> cut[i] == base[i];
  }

  lemma Hyphenated(prefix: string, tail: string)
    requires prefix != "" && AllDns(prefix) && Alnum(prefix[0])
    requires tail != "" && AllAlnum(tail)
    ensures var name := prefix + "-" + tail;
            && DnsLabel(name)
            && name[|name| - |tail|..] == tail
            && name[|name| - |tail| - 1] == '-'
            && name[..|name| - |tail| - 1] == prefix
  {
    var name := prefix + "-" + tail;
    assert name[|name| - 1] == tail[|tail| - 1];
    assert forall i :: 0 <= i < |name| ==> DnsChar(name[i]);
  }

  /** Names with different hash tails differ, whatever their bases and limits. */
  lemma TailsSeparateNames(b1: string, l1: nat, p1: seq<string>, b2: string, l2: nat, p2: seq<string>,
                           sum: string -> string)
    requires IsHexSum(sum) && l1 > SUFFIX_HEX_CHARS + 1 && l2 > SUFFIX_HEX_CHARS + 1
    requires DnsLabel(b1) && DnsLabel(b2)
    requires Suffix(p1, sum) != Suffix(p2, sum)
    ensures BoundedName(b1, l1, p1, sum) != BoundedName(b2, l2, p2, sum)
  {
    BoundedShape(b1, l1, Suffix(p1, sum));
    BoundedShape(b2, l2, Suffix(p2, sum));
  }

  /** Parts without a slash are settled by the text that is hashed. */
  lemma {:induction false} HashedTextSettlesParts(p: seq<string>, q: seq<string>)
    requires |p| == |q|
    requires forall i :: 0 <= i < |p| ==> '/' !in p[i] && '/' !in q[i]
    requires Join(p, '/') == Join(q, '/')
    ensures p == q
  {
    if |p| == 1 {
      assert p == [p[0]] && q == [q[0]];
    } else if |p| > 1 {
      SlashSplits(p[0], Join(p[1..], '/'), q[0], Join(q[1..], '/'));
      HashedTextSettlesParts(p[1..], q[1..]);
      assert p == [p[0]] + p[1..] && q == [q[0]] + q[1..];
    }
  }

  lemma SlashSplits(a: string, x: string, b: string, y: string)
    requires '/' !in a && '/' !in b
    requires a + "/" + x == b + "/" + y
    ensures a == b && x == y
  {
    var s, t := a + "/" + x, b + "/" + y;
    assert s[|a|] == '/' && t[|b|] == '/';
    assert a == s[..|a|] && b == t[..|b|];
    assert x == s[|a| + 1..] && y == t[|b| + 1..];
  }

  /**
   Every generated name satisfies the limit and the pattern of the resource it
   names, for all inputs.
   */
  lemma GeneratedNamesAreValid(uid: string, namespace: string, name: string, lower: char -> char, sum: string -> string)
    requires IsHexSum(sum)
    ensures DnsLabel(BucketName(namespace, name, lower, sum))
    ensures |BucketName(namespace, name, lower, sum)| <= DNS_NAME_LIMIT
    ensures DnsLabel(RoleName(uid, namespace, name, lower, sum))
    ensures |RoleName(uid, namespace, name, lower, sum)| <= IAM_NAME_LIMIT
    ensures DnsLabel(PolicyName(uid, namespace, name, lower, sum))
    ensures |PolicyName(uid, namespace, name, lower, sum)| <= IAM_POLICY_LIMIT
    ensures DnsLabel(OwnerLabelValue(namespace, name, lower, sum))
    ensures |OwnerLabelValue(namespace, name, lower, sum)| <= DNS_NAME_LIMIT
  {
    JoinedNameIsValid("", [namespace, name], DNS_NAME_LIMIT, [namespace, name], lower, sum);
    JoinedNameIsValid("", [namespace, name], IAM_NAME_LIMIT, [uid, namespace, name], lower, sum);
    JoinedNameIsValid("pol", [namespace, name], IAM_POLICY_LIMIT, [uid, "policy", namespace, name], lower, sum);
    OwnerLabelIsValid(namespace, name, lower, sum);
  }

  lemma JoinedNameIsValid(kind: string, parts: seq<string>, limit: nat, suffixParts: seq<string>,
                          lower: char -> char, sum: string -> string)
    requires IsHexSum(sum) && (kind == "" || DnsLabel(kind)) && limit > SUFFIX_HEX_CHARS + 1
    ensures var name := BoundedName(JoinedBase(kind, parts, lower), limit, suffixParts, sum);
              DnsLabel(name) && |name| <= limit
  {
    JoinedBaseIsLabel(kind, parts, lower);
    BoundedShape(JoinedBase(kind, parts, lower), limit, Suffix(suffixParts, sum));
  }

  lemma HyphenJoins(a: string, b: string)
    requires DnsLabel(a) && DnsLabel(b)
    ensures DnsLabel(a + "-" + b)
  {
    var joined := a + "-" + b;
    assert joined[0] == a[0] && joined[|joined| - 1] == b[|b| - 1];
  }

  lemma OwnerLabelIsValid(namespace: string, name: string, lower: char -> char, sum: string -> string)
    requires IsHexSum(sum)
    ensures var value := OwnerLabelValue(namespace, name, lower, sum); DnsLabel(value) && |value| <= DNS_NAME_LIMIT
  {
    var base := SafeDnsPart(namespace, lower) + "-" + SafeDnsPart(name, lower);
    HyphenJoins(SafeDnsPart(namespace, lower), SafeDnsPart(name, lower));
    BoundedShape(base, DNS_NAME_LIMIT, Suffix([namespace, name], sum));
  }

  /** `name` ends in a hyphen and the first ten digits of the hash of `text`. */
  predicate EndsInHashOf(name: string, text: string, sum: string -> string)
    requires IsHexSum(sum)
  {
    |name| >= 11 && name[|name| - 11] == '-' && name[|name| - 10..] == sum(text)[..10]
  }

  lemma BoundedEndsInHash(base: string, limit: nat, parts: seq<string>, text: string, sum: string -> string)
    requires IsHexSum(sum) && DnsLabel(base) && limit > SUFFIX_HEX_CHARS + 1 && Join(parts, '/') == text
    ensures EndsInHashOf(BoundedName(base, limit, parts, sum), text, sum)
  {
    BoundedShape(base, limit, Suffix(parts, sum));
  }

  /** What each generated name hashes: exactly these parts, in this order, separated by slashes. */
  lemma HashedParts(uid: string, namespace: string, name: string, lower: char -> char, sum: string -> string)
    requires IsHexSum(sum)
    ensures EndsInHashOf(BucketName(namespace, name, lower, sum), namespace + "/" + name, sum)
    ensures EndsInHashOf(RoleName(uid, namespace, name, lower, sum), uid + "/" + namespace + "/" + name, sum)
    ensures EndsInHashOf(PolicyName(uid, namespace, name, lower, sum), uid + "/policy/" + namespace + "/" + name, sum)
    ensures EndsInHashOf(OwnerLabelValue(namespace, name, lower, sum), namespace + "/" + name, sum)
  {
    JoinedBaseIsLabel("", [namespace, name], lower);
    JoinedBaseIsLabel("pol", [namespace, name], lower);
    HyphenJoins(SafeDnsPart(namespace, lower), SafeDnsPart(name, lower));
    JoinTwo(namespace, name, '/');
    JoinThree(uid, namespace, name, '/');
    JoinFour(uid, namespace, name);
    var base := JoinedBase("", [namespace, name], lower);
    BoundedEndsInHash(base, DNS_NAME_LIMIT, [namespace, name], namespace + "/" + name, sum);
    BoundedEndsInHash(base, IAM_NAME_LIMIT, [uid, namespace, name], uid + "/" + namespace + "/" + name, sum);
    BoundedEndsInHash(JoinedBase("pol", [namespace, name], lower), IAM_POLICY_LIMIT, [uid, "policy", namespace, name],
                      uid + "/policy/" + namespace + "/" + name, sum);
    BoundedEndsInHash(SafeDnsPart(namespace, lower) + "-" + SafeDnsPart(name, lower), DNS_NAME_LIMIT, [namespace, name],
                      namespace + "/" + name, sum);
  }

  lemma JoinTwo(a: string, b: string, sep: char)
    ensures Join([a, b], sep) == a + [sep] + b
  {
    assert [a, b][1..] == [b];
  }

  lemma JoinThree(a: string, b: string, c: string, sep: char)
    ensures Join([a, b, c], sep) == a + [sep] + b + [sep] + c
  {
    assert [a, b, c][1..] == [b, c];
    JoinTwo(b, c, sep);
  }

  lemma JoinFour(uid: string, namespace: string, name: string)
    ensures Join([uid, "policy", namespace, name], '/') == uid + "/policy/" + namespace + "/" + name
  {
    assert [uid, "policy", namespace, name][1..] == ["policy", namespace, name];
    JoinThree("policy", namespace, name, '/');
  }

  /** What stands before the hash: the prefix, an optional kind and the sanitised parts, as long as it fits. */
  lemma ShortNamesAreWhole(uid: string, namespace: string, name: string, lower: char -> char, sum: string -> string)
    requires IsHexSum(sum) && DnsLabel(namespace) && DnsLabel(name) && forall c :: DnsChar(c) ==> lower(c) == c
    ensures |namespace| + |name| <= 47 ==>
              BucketName(namespace, name, lower, sum) ==
              "awi-" + namespace + "-" + name + "-" + sum(namespace + "/" + name)[..10]
    ensures |namespace| + |name| <= 48 ==>
              RoleName(uid, namespace, name, lower, sum) ==
              "awi-" + namespace + "-" + name + "-" + sum(uid + "/" + namespace + "/" + name)[..10]
    ensures |namespace| + |name| <= 108 ==>
              PolicyName(uid, namespace, name, lower, sum) ==
              "awi-pol-" + namespace + "-" + name + "-" + sum(uid + "/policy/" + namespace + "/" + name)[..10]
  {
    JoinTwo(namespace, name, '/');
    JoinThree(uid, namespace, name, '/');
    JoinFour(uid, namespace, name);
    BaseIs(namespace, name, lower);
  }

  lemma BaseIs(namespace: string, name: string, lower: char -> char)
    requires DnsLabel(namespace) && DnsLabel(name) && forall c :: DnsChar(c) ==> lower(c) == c
    ensures JoinedBase("", [namespace, name], lower) == "awi-" + namespace + "-" + name
    ensures JoinedBase("pol", [namespace, name], lower) == "awi-pol-" + namespace + "-" + name
  {
    SafePartsKeepLabels(namespace, name, lower);
    assert ["awi"] + [] + [namespace, name] == ["awi", namespace, name];
    assert ["awi"] + ["pol"] + [namespace, name] == ["awi", "pol", namespace, name];
    assert ["awi", "pol", namespace, name][1..] == ["pol", namespace, name];
    JoinThree("awi", namespace, name, '-');
    JoinThree("pol", namespace, name, '-');
    assert "awi" + ['-'] == "awi-" && "awi" + ['-'] + "pol" + ['-'] == "awi-pol-";
  }

  lemma SafePartsKeepLabels(a: string, b: string, lower: char -> char)
    requires DnsLabel(a) && DnsLabel(b) && forall c :: DnsChar(c) ==> lower(c) == c
    ensures SafeParts([a, b], lower) == [a, b]
  {
    SafeDnsPartKeepsLabels(a, lower);
    SafeDnsPartKeepsLabels(b, lower);
    assert [a, b][1..] == [b] && [b][1..] == [];
    assert SafeParts([b], lower) == [b];
  }

  /** Two roles share an IAM name only when their hashed identities collide in the first ten digits. */
  lemma RoleNamesSeparate(u1: string, ns1: string, n1: string, u2: string, ns2: string, n2: string,
                          lower: char -> char, sum: string -> string)
    requires IsHexSum(sum)
    requires '/' !in u1 && '/' !in ns1 && '/' !in n1 && '/' !in u2 && '/' !in ns2 && '/' !in n2
    requires RoleName(u1, ns1, n1, lower, sum) == RoleName(u2, ns2, n2, lower, sum)
    ensures sum(Join([u1, ns1, n1], '/'))[..10] == sum(Join([u2, ns2, n2], '/'))[..10]
    ensures Join([u1, ns1, n1], '/') == Join([u2, ns2, n2], '/') ==> (u1, ns1, n1) == (u2, ns2, n2)
  {
    JoinedBaseIsLabel("", [ns1, n1], lower);
    JoinedBaseIsLabel("", [ns2, n2], lower);
    if Suffix([u1, ns1, n1], sum) != Suffix([u2, ns2, n2], sum) {
      TailsSeparateNames(JoinedBase("", [ns1, n1], lower), IAM_NAME_LIMIT, [u1, ns1, n1],
                         JoinedBase("", [ns2, n2], lower), IAM_NAME_LIMIT, [u2, ns2, n2], sum);
    }
    if Join([u1, ns1, n1], '/') == Join([u2, ns2, n2], '/') {
      HashedTextSettlesParts([u1, ns1, n1], [u2, ns2, n2]);
      assert [u1, ns1, n1][0] == [u2, ns2, n2][0] && [u1, ns1, n1][1] == [u2, ns2, n2][1];
    }
  }
}
