/**
 * IPv6 addresses as text: lower case, an embedded dotted quad, and one run of zero groups written "::".
 * Legal text is what section 2.2 of RFC 4291 allows. Scoped text such as `fe80::1%eth0`, which also gets this
 * far, is not modelled.
 */
module Ipv6 {
  import opened Wrappers
  import opened Text
  import opened Addresses

  // ---------------------------------------------------------------- expansion

  function LowerChar(c: char): char {
    if 'A' <= c <= 'Z' then c - 'A' + 'a' else c
  }

  function Lower(s: string): (r: string)
    ensures |r| == |s|
  {
    seq(|s|, i requires 0 <= i < |s| => LowerChar(s[i]))
  }

  /** What follows the last colon. */
  function AfterLast(s: string): (r: string)
    ensures |r| <= |s|
  {
    if s == "" || s[|s| - 1] == ':' then "" else AfterLast(s[..|s| - 1]) + [s[|s| - 1]]
  }

  predicate IsQuad(s: string) {
    var parts := Split(s, '.');
    |parts| == 4 && forall i :: 0 <= i < 4 ==> parts[i] != "" && Digits(parts[i], 10)
  }

  /** A trailing dotted quad, rewritten as two groups. */
  function QuadToGroups(address: string): string {
    var last := AfterLast(address);
    if IsQuad(last) then
      var n := Ipv4ToInt(last);
      address[..|address| - |last|] + Numeral(n / 0x1_0000, 16) + ":" + Numeral(BitAnd(n, 0xffff), 16)
    else address
  }

  predicate HasDouble(s: string) {
    |s| >= 2 && ((s[0] == ':' && s[1] == ':') || HasDouble(s[1..]))
  }

  /** What precedes the first double colon. */
  function Head(s: string): string {
    if |s| < 2 then s else if s[0] == ':' && s[1] == ':' then "" else [s[0]] + Head(s[1..])
  }

  /** What follows it. */
  function Rest(s: string): string
    requires HasDouble(s)
  {
    if s[0] == ':' && s[1] == ':' then s[2..] else Rest(s[1..])
  }

  function Values(groups: seq<string>): seq<nat> {
    seq(|groups|, i requires 0 <= i < |groups| => if groups[i] == "" then 0 else Value(groups[i], 16))
  }

  function Zeros(n: nat): seq<string> {
    seq(n, _ => "0")
  }

  /** The groups on both sides of the double colon, with zeros between; malformed text gives other than eight. */
  function Assemble(head: string, tail: Option<string>): seq<nat> {
    var left := if head == "" then [] else Split(head, ':');
    var right := if tail.Some? && tail.value != "" then Split(tail.value, ':') else [];
    var missing := if tail.None? || 8 < |left| + |right| then 0 else 8 - |left| - |right|;
    Values(left + Zeros(missing) + right)
  }

  function Expand(address: string): seq<nat> {
    Assemble(Head(address), if HasDouble(address) then Some(Head(Rest(address))) else None)
  }

  function Ipv6Groups(ip: string): seq<nat> {
    Expand(QuadToGroups(Lower(ip)))
  }

  // ---------------------------------------------------------------- the check

  predicate AllZero(g: seq<nat>) {
    forall i :: 0 <= i < |g| ==> g[i] == 0
  }

  /** Unique local, link local or multicast. */
  predicate PrivatePrefix(g: nat) {
    BitAnd(g, 0xfe00) == 0xfc00 || BitAnd(g, 0xffc0) == 0xfe80 || BitAnd(g, 0xff00) == 0xff00
  }

  /** The last two groups as a dotted quad. */
  function CarriedText(g: nat, h: nat): string {
    DottedText(g / 256, BitAnd(g, 0xff), h / 256, BitAnd(h, 0xff))
  }

  /** `carried` is the verdict on the IPv4 address in the last two groups, if it comes to that. */
  predicate IsPrivateGroups(g: seq<nat>, carried: bool) {
    if |g| != 8 then true
    else if AllZero(g) then true
    else if AllZero(g[..7]) && g[7] == 1 then true
    else if PrivatePrefix(g[0]) then true
    else if AllZero(g[..5]) && (g[5] == 0xffff || g[5] == 0) then carried
    else false
  }

  predicate IsPrivateV6(ip: string) {
    var g := Ipv6Groups(ip);
    IsPrivateGroups(g, |g| == 8 && IsPrivateV4(CarriedText(g[6], g[7])))
  }

  // ---------------------------------------------------------------- legal text and its meaning

  datatype Tail = NoQuad | Embedded(quad: Quad)

  datatype Address =
    | Full(groups: seq<string>, tail: Tail)
    | Compressed(left: seq<string>, right: seq<string>, tail: Tail)

  predicate LegalGroups(groups: seq<string>) {
    forall i :: 0 <= i < |groups| ==> 1 <= |groups[i]| <= 4 && Digits(groups[i], 16)
  }

  function Width(tail: Tail): nat {
    if tail.Embedded? then 2 else 0
  }

  predicate Legal(a: Address) {
    match a
    case Full(groups, tail) => LegalGroups(groups) && |groups| + Width(tail) == 8
    case Compressed(left, right, tail) => LegalGroups(left) && LegalGroups(right) && |left| + |right| + Width(tail) <= 7
  }

  function Parts(groups: seq<string>, tail: Tail): seq<string> {
    groups + if tail.Embedded? then [QuadText(tail.quad)] else []
  }

  function Written(a: Address): string {
    match a
    case Full(groups, tail) => Join(Parts(groups, tail), ':')
    case Compressed(left, right, tail) => Join(left, ':') + "::" + Join(Parts(right, tail), ':')
  }

  function TailValue(tail: Tail): seq<nat> {
    match tail
    case NoQuad => []
    case Embedded(q) => [q.a * 256 + q.b, q.c * 256 + q.d]
  }

  function NoughtGroups(n: nat): seq<nat> {
    seq(n, _ => 0)
  }

  /** The eight groups an address stands for. */
  function Meaning(a: Address): seq<nat>
    requires Legal(a)
  {
    match a
    case Full(groups, tail) => Values(groups) + TailValue(tail)
    case Compressed(left, right, tail) =>
      Values(left) + NoughtGroups(8 - |left| - |right| - Width(tail)) + Values(right) + TailValue(tail)
  }

  // ---------------------------------------------------------------- lower case

  function LowerAll(groups: seq<string>): seq<string> {
    seq(|groups|, i requires 0 <= i < |groups| => Lower(groups[i]))
  }

  function LowerOf(a: Address): Address {
    match a
    case Full(groups, tail) => Full(LowerAll(groups), tail)
    case Compressed(left, right, tail) => Compressed(LowerAll(left), LowerAll(right), tail)
  }

  lemma LowerAppend(x: string, y: string)
    ensures Lower(x + y) == Lower(x) + Lower(y)
  {
  }

  lemma {:induction false} LowerJoin(parts: seq<string>, sep: char)
    requires LowerChar(sep) == sep
    ensures Lower(Join(parts, sep)) == Join(LowerAll(parts), sep)
  {
    if |parts| > 1 {
      LowerJoin(parts[1..], sep);
      assert LowerAll(parts)[1..] == LowerAll(parts[1..]);
      LowerAppend(parts[0] + [sep], Join(parts[1..], sep));
      LowerAppend(parts[0], [sep]);
    }
  }

  lemma LowerDecimal(s: string)
    requires Digits(s, 10)
    ensures Lower(s) == s
  {
  }

  lemma LowerQuad(q: Quad)
    ensures Lower(QuadText(q)) == QuadText(q)
  {
    var parts := [Numeral(q.a, 10), Numeral(q.b, 10), Numeral(q.c, 10), Numeral(q.d, 10)];
    LowerJoin(parts, '.');
    forall i | 0 <= i < 4 ensures Lower(parts[i]) == parts[i] {
      NumeralDigits([q.a, q.b, q.c, q.d][i], 10);
      LowerDecimal(parts[i]);
    }
    assert LowerAll(parts) == parts;
  }

  lemma {:induction false} LowerValue(s: string, n: nat)
    ensures ValueFrom(Lower(s), 16, n) == ValueFrom(s, 16, n)
  {
    if s != "" {
      assert Lower(s)[1..] == Lower(s[1..]);
      LowerValue(s[1..], n * 16 + DigitValue(s[0]));
    }
  }

  lemma LowerValues(groups: seq<string>)
    ensures Values(LowerAll(groups)) == Values(groups)
    ensures LegalGroups(groups) ==> LegalGroups(LowerAll(groups))
  {
    forall i | 0 <= i < |groups| ensures Values(LowerAll(groups))[i] == Values(groups)[i] { LowerValue(groups[i], 0); }
  }

  lemma LowerParts(groups: seq<string>, tail: Tail)
    ensures Lower(Join(Parts(groups, tail), ':')) == Join(Parts(LowerAll(groups), tail), ':')
  {
    LowerJoin(Parts(groups, tail), ':');
    if tail.Embedded? { LowerQuad(tail.quad); }
    assert LowerAll(Parts(groups, tail)) == Parts(LowerAll(groups), tail);
  }

  /** Letter case does not matter. */
  lemma LowerWritten(a: Address)
    requires Legal(a)
    ensures Legal(LowerOf(a)) && Lower(Written(a)) == Written(LowerOf(a)) && Meaning(LowerOf(a)) == Meaning(a)
  {
    match a
    case Full(groups, tail) =>
      LowerParts(groups, tail);
      LowerValues(groups);
    case Compressed(left, right, tail) =>
      LowerParts(right, tail);
      LowerJoin(left, ':');
      LowerAppend(Join(left, ':') + "::", Join(Parts(right, tail), ':'));
      LowerAppend(Join(left, ':'), "::");
      assert Lower("::") == "::";
      LowerValues(left);
      LowerValues(right);
  }

  // ---------------------------------------------------------------- the embedded quad

  function HexPair(q: Quad): seq<string> {
    [Numeral(QuadValue(q) / 0x1_0000, 16), Numeral(QuadValue(q) % 0x1_0000, 16)]
  }

  function HexTail(tail: Tail): seq<string> {
    if tail.Embedded? then HexPair(tail.quad) else []
  }

  function WithoutQuad(a: Address): Address {
    match a
    case Full(groups, tail) => Full(groups + HexTail(tail), NoQuad)
    case Compressed(left, right, tail) => Compressed(left, right + HexTail(tail), NoQuad)
  }

  lemma {:induction false} AfterLastColon(before: string, last: string)
    requires ':' !in last && (before == "" || before[|before| - 1] == ':')
    ensures AfterLast(before + last) == last
  {
    var s := before + last;
    if last == "" {
      assert s == before;
    } else {
      var n := |last| - 1;
      assert s[..|s| - 1] == before + last[..n];
      AfterLastColon(before, last[..n]);
      assert last == last[..n] + [last[n]];
    }
  }

  lemma QuadIsQuad(q: Quad)
    ensures IsQuad(QuadText(q)) && ':' !in QuadText(q) && QuadText(q) != ""
  {
    QuadRoundTrip(q);
    var parts := [Numeral(q.a, 10), Numeral(q.b, 10), Numeral(q.c, 10), Numeral(q.d, 10)];
    forall i | 0 <= i < 4 ensures parts[i] != "" && Digits(parts[i], 10) && ':' !in parts[i] {
      DecimalFree([q.a, q.b, q.c, q.d][i]);
    }
    JoinAvoids(parts, '.', ':');
  }

  lemma {:induction false} JoinAvoids(parts: seq<string>, sep: char, c: char)
    requires c != sep && forall i :: 0 <= i < |parts| ==> c !in parts[i]
    ensures c !in Join(parts, sep)
  {
    if |parts| > 1 { JoinAvoids(parts[1..], sep, c); }
  }

  lemma {:induction false} LowWord(n: nat)
    ensures BitAnd(n, 0xffff) == n % 0x1_0000
  {
    Powers();
    LowBits(n, 16);
  }

  lemma LastRewritten(before: string, last: string)
    requires before != "" && before[|before| - 1] == ':'
    requires IsQuad(last) && ':' !in last
    ensures var n := Ipv4ToInt(last);
            QuadToGroups(before + last) == before + (Numeral(n / 0x1_0000, 16) + ":" + Numeral(n % 0x1_0000, 16))
  {
    AfterLastColon(before, last);
    LowWord(Ipv4ToInt(last));
    PairAppended(before, last, Numeral(Ipv4ToInt(last) / 0x1_0000, 16), Numeral(BitAnd(Ipv4ToInt(last), 0xffff), 16));
  }

  lemma PairAppended(before: string, last: string, x: string, y: string)
    ensures (before + last)[..|before + last| - |last|] + x + ":" + y == before + (x + ":" + y)
  {
    assert (before + last)[..|before + last| - |last|] == before;
  }

  lemma JoinPair(x: string, y: string)
    ensures Join([x, y], ':') == x + ":" + y
  {
    assert [x, y][1..] == [y];
  }

  /** Rewriting text that ends in a colon and a dotted quad. */
  lemma QuadRewritten(before: string, q: Quad)
    requires before != "" && before[|before| - 1] == ':'
    ensures QuadToGroups(before + QuadText(q)) == before + Join(HexPair(q), ':')
  {
    QuadIsQuad(q);
    QuadRoundTrip(q);
    LastRewritten(before, QuadText(q));
    JoinPair(HexPair(q)[0], HexPair(q)[1]);
  }

  /** Text that ends in a hexadecimal group, or in a colon, is left alone. */
  lemma NoQuadKept(before: string, last: string)
    requires (before == "" || before[|before| - 1] == ':') && Digits(last, 16)
    ensures QuadToGroups(before + last) == before + last
  {
    assert DigitValue(':') == 16 && DigitValue('.') == 16;
    AfterLastColon(before, last);
    assert Split(last, '.') == [last];
  }

  predicate EndsInColon(s: string) {
    s != "" && s[|s| - 1] == ':'
  }

  /** The text up to its last group, when it has one. */
  function UpToLast(groups: seq<string>): string
    requires groups != []
  {
    if |groups| == 1 then "" else Join(groups[..|groups| - 1], ':') + ":"
  }

  lemma {:induction false} JoinLast(groups: seq<string>)
    requires |groups| > 1
    ensures Join(groups, ':') == Join(groups[..|groups| - 1], ':') + (":" + groups[|groups| - 1])
  {
    var n := |groups| - 1;
    assert groups == groups[..n] + [groups[n]];
    JoinAppend(groups[..n], [groups[n]], ':');
  }

  lemma LastApart(a: string, b: string, c: string)
    ensures a + (b + c) == (a + b) + c
    ensures b != "" ==> (a + b)[|a + b| - 1] == b[|b| - 1]
  {
  }

  lemma {:induction false} SplitLast(groups: seq<string>)
    requires groups != []
    ensures Join(groups, ':') == UpToLast(groups) + groups[|groups| - 1]
    ensures UpToLast(groups) == "" || EndsInColon(UpToLast(groups))
  {
    var n := |groups| - 1;
    if n > 0 {
      JoinLast(groups);
      LastApart(Join(groups[..n], ':'), ":", groups[n]);
    }
  }

  lemma KeptAfter(before: string, middle: string, last: string)
    requires (before == "" || EndsInColon(before)) && (middle == "" || EndsInColon(middle)) && Digits(last, 16)
    ensures QuadToGroups(before + (middle + last)) == before + (middle + last)
  {
    NoQuadKept(before + middle, last);
    assert before + (middle + last) == before + middle + last;
  }

  lemma {:induction false} NoTailKept(before: string, groups: seq<string>)
    requires LegalGroups(groups) && (before == "" || EndsInColon(before))
    ensures QuadToGroups(before + Join(groups, ':')) == before + Join(groups, ':')
  {
    if groups == [] {
      NoQuadKept(before, "");
    } else {
      SplitLast(groups);
      KeptAfter(before, UpToLast(groups), groups[|groups| - 1]);
    }
  }

  lemma Regrouped(a: string, b: string, c: string, d: string)
    ensures a + (b + c + d) == a + (b + c) + d
  {
  }

  lemma RewrittenAfter(before: string, middle: string, q: Quad)
    ensures QuadToGroups(before + (middle + [':'] + QuadText(q))) == before + (middle + [':'] + Join(HexPair(q), ':'))
  {
    Regrouped(before, middle, [':'], QuadText(q));
    Regrouped(before, middle, [':'], Join(HexPair(q), ':'));
    QuadRewritten(before + (middle + [':']), q);
  }

  lemma {:induction false} TailRewritten(before: string, groups: seq<string>, q: Quad)
    requires groups != []
    ensures QuadToGroups(before + Join(groups + [QuadText(q)], ':')) == before + Join(groups + HexPair(q), ':')
  {
    JoinAppend(groups, [QuadText(q)], ':');
    JoinAppend(groups, HexPair(q), ':');
    RewrittenAfter(before, Join(groups, ':'), q);
  }

  /** A list of groups, after some text that is empty or ends in a colon, with its tail rewritten. */
  lemma {:induction false} GroupsRewritten(before: string, groups: seq<string>, tail: Tail)
    requires LegalGroups(groups) && (before == "" || EndsInColon(before)) && (before == "" ==> groups != [])
    ensures QuadToGroups(before + Join(Parts(groups, tail), ':')) == before + Join(groups + HexTail(tail), ':')
  {
    if tail.NoQuad? {
      assert Parts(groups, tail) == groups && groups + HexTail(tail) == groups;
      NoTailKept(before, groups);
    } else if groups == [] {
      assert Parts(groups, tail) == [QuadText(tail.quad)] && groups + HexTail(tail) == HexPair(tail.quad);
      QuadRewritten(before, tail.quad);
    } else {
      TailRewritten(before, groups, tail.quad);
    }
  }

  lemma {:induction false} HexLegal(n: nat)
    requires n < 0x1_0000
    ensures 1 <= |Numeral(n, 16)| <= 4 && Digits(Numeral(n, 16), 16) && Value(Numeral(n, 16), 16) == n
  {
    NumeralDigits(n, 16);
    ValueOfNumeral(n, 16);
    Powers();
    ShortNumeral(n, 4);
  }

  lemma HexPairLegal(q: Quad)
    ensures LegalGroups(HexPair(q)) && Values(HexPair(q)) == [q.a * 256 + q.b, q.c * 256 + q.d]
  {
    var n := QuadValue(q);
    assert n / 0x1_0000 == q.a * 256 + q.b && n % 0x1_0000 == q.c * 256 + q.d;
    HexLegal(n / 0x1_0000);
    HexLegal(n % 0x1_0000);
  }

  lemma {:induction false} ShortNumeral(n: nat, k: nat)
    requires 1 <= k && n < Pow2(4 * k)
    ensures |Numeral(n, 16)| <= k
  {
    if n >= 16 {
      assert Pow2(4 * k) == 2 * Pow2(4 * k - 1) == 4 * Pow2(4 * k - 2) == 8 * Pow2(4 * k - 3) == 16 * Pow2(4 * (k - 1));
      assert k > 1 by { assert Pow2(4) == 16; }
      ShortNumeral(n / 16, k - 1);
    }
  }

  lemma ValuesAppend(xs: seq<string>, ys: seq<string>)
    ensures Values(xs + ys) == Values(xs) + Values(ys)
  {
    var all := Values(xs + ys);
    assert all[..|xs|] == Values(xs);
    assert all[|xs|..] == Values(ys);
  }

  lemma TailGroups(groups: seq<string>, tail: Tail)
    requires LegalGroups(groups)
    ensures LegalGroups(groups + HexTail(tail)) && |HexTail(tail)| == Width(tail)
    ensures Values(groups + HexTail(tail)) == Values(groups) + TailValue(tail)
  {
    TailLegal(tail);
    ValuesAppend(groups, HexTail(tail));
    LegalAppend(groups, HexTail(tail));
  }

  lemma TailLegal(tail: Tail)
    ensures LegalGroups(HexTail(tail)) && |HexTail(tail)| == Width(tail) && Values(HexTail(tail)) == TailValue(tail)
  {
    match tail
    case NoQuad => assert HexTail(tail) == [];
    case Embedded(quad) => HexPairLegal(quad);
  }

  lemma LegalAppend(xs: seq<string>, ys: seq<string>)
    requires LegalGroups(xs) && LegalGroups(ys)
    ensures LegalGroups(xs + ys)
  {
  }

  /** An embedded quad stands for two groups. */
  lemma QuadAsGroups(a: Address)
    requires Legal(a)
    ensures Legal(WithoutQuad(a)) && QuadToGroups(Written(a)) == Written(WithoutQuad(a))
            && Meaning(WithoutQuad(a)) == Meaning(a)
  {
    match a
    case Full(groups, tail) => FullQuad(groups, tail);
    case Compressed(left, right, tail) => CompressedQuad(left, right, tail);
  }

  lemma FullQuad(groups: seq<string>, tail: Tail)
    requires Legal(Full(groups, tail))
    ensures var a := Full(groups, tail);
            Legal(WithoutQuad(a)) && QuadToGroups(Written(a)) == Written(WithoutQuad(a))
              && Meaning(WithoutQuad(a)) == Meaning(a)
  {
    TailGroups(groups, tail);
    GroupsRewritten("", groups, tail);
    assert "" + Join(Parts(groups, tail), ':') == Join(Parts(groups, tail), ':');
    assert "" + Join(groups + HexTail(tail), ':') == Join(groups + HexTail(tail), ':');
    assert Parts(groups + HexTail(tail), NoQuad) == groups + HexTail(tail);
  }

  lemma CompressedMeaning(left: seq<string>, right: seq<string>, tail: Tail)
    requires Legal(Compressed(left, right, tail))
    ensures Legal(Compressed(left, right + HexTail(tail), NoQuad))
    ensures Meaning(Compressed(left, right + HexTail(tail), NoQuad)) == Meaning(Compressed(left, right, tail))
  {
    TailGroups(right, tail);
    Regroup(Values(left), NoughtGroups(8 - |left| - |right| - Width(tail)), Values(right), TailValue(tail));
  }

  lemma CompressedQuad(left: seq<string>, right: seq<string>, tail: Tail)
    requires Legal(Compressed(left, right, tail))
    ensures var a := Compressed(left, right, tail);
            Legal(WithoutQuad(a)) && QuadToGroups(Written(a)) == Written(WithoutQuad(a))
              && Meaning(WithoutQuad(a)) == Meaning(a)
  {
    CompressedMeaning(left, right, tail);
    GroupsRewritten(Join(left, ':') + "::", right, tail);
    assert Parts(right + HexTail(tail), NoQuad) == right + HexTail(tail);
  }

  lemma Regroup(a: seq<nat>, b: seq<nat>, c: seq<nat>, d: seq<nat>)
    ensures a + b + (c + d) + [] == a + b + c + d
    ensures a + b + (c + d) == a + b + c + d
  {
  }

  // ---------------------------------------------------------------- the double colon

  lemma {:induction false} HeadOfPlain(s: string)
    requires !HasDouble(s)
    ensures Head(s) == s
  {
    if |s| >= 2 { HeadOfPlain(s[1..]); }
  }

  lemma {:induction false} HeadAndRest(x: string, y: string)
    requires !HasDouble(x) && !EndsInColon(x)
    ensures HasDouble(x + "::" + y) && Head(x + "::" + y) == x && Rest(x + "::" + y) == y
  {
    var s := x + "::" + y;
    if x == "" {
      assert s[2..] == y;
    } else {
      assert s[1..] == x[1..] + "::" + y;
      HeadAndRest(x[1..], y);
      assert x == [x[0]] + x[1..];
      assert |x| == 1 ==> x[0] != ':';
      assert |x| > 1 ==> s[1] == x[1];
    }
  }

  lemma {:induction false} NoDoubleAcross(x: string, y: string)
    requires ':' !in x && !HasDouble(y) && (y != "" ==> y[0] != ':')
    ensures x != "" ==> !HasDouble(x + [':'] + y)
    ensures !HasDouble([':'] + y)
  {
    assert ([':'] + y)[1..] == y;
    if x != "" {
      NoDoubleAcross(x[1..], y);
      assert (x + [':'] + y)[1..] == x[1..] + [':'] + y;
      if |x| == 1 { assert x[1..] + [':'] + y == [':'] + y; }
    }
  }

  lemma {:induction false} ShortHasNone(x: string)
    requires ':' !in x
    ensures !HasDouble(x)
  {
    if |x| >= 2 { ShortHasNone(x[1..]); }
  }

  lemma {:induction false} JoinedGroups(groups: seq<string>)
    requires groups != [] && LegalGroups(groups)
    ensures !HasDouble(Join(groups, ':')) && !EndsInColon(Join(groups, ':'))
    ensures Join(groups, ':') != "" && Join(groups, ':')[0] != ':'
    ensures Split(Join(groups, ':'), ':') == groups
  {
    assert DigitValue(':') == 16;
    SplitJoin(groups, ':');
    if |groups| == 1 {
      ShortHasNone(groups[0]);
    } else {
      JoinedGroups(groups[1..]);
      NoDoubleAcross(groups[0], Join(groups[1..], ':'));
    }
  }

  lemma ZerosRead(n: nat)
    ensures Values(Zeros(n)) == NoughtGroups(n)
  {
    assert Value("0", 16) == 0 by { assert "0"[1..] == ""; }
  }

  lemma {:induction false} ExpandFull(groups: seq<string>)
    requires LegalGroups(groups) && |groups| == 8
    ensures Expand(Join(groups, ':')) == Values(groups)
  {
    JoinedGroups(groups);
    HeadOfPlain(Join(groups, ':'));
    assert groups + Zeros(0) + [] == groups;
  }

  lemma Filled(left: seq<string>, right: seq<string>, missing: nat)
    ensures Values(left + Zeros(missing) + right) == Values(left) + NoughtGroups(missing) + Values(right)
  {
    ZerosRead(missing);
    ValuesAppend(left, Zeros(missing));
    ValuesAppend(left + Zeros(missing), right);
  }

  /** Splitting gives the groups back, and none for empty text. */
  lemma {:induction false} GroupsRead(groups: seq<string>)
    requires LegalGroups(groups)
    ensures var text := Join(groups, ':');
            && !HasDouble(text) && !EndsInColon(text) && Head(text) == text
            && (if text == "" then [] else Split(text, ':')) == groups
  {
    if groups != [] { JoinedGroups(groups); }
    HeadOfPlain(Join(groups, ':'));
  }

  lemma {:induction false} AssembleParts(head: string, tail: string, left: seq<string>, right: seq<string>)
    requires left == if head == "" then [] else Split(head, ':')
    requires right == if tail == "" then [] else Split(tail, ':')
    requires |left| + |right| <= 8
    ensures Assemble(head, Some(tail)) == Values(left + Zeros(8 - |left| - |right|) + right)
  {
  }

  lemma {:induction false} AssembleGroups(left: seq<string>, right: seq<string>)
    requires LegalGroups(left) && LegalGroups(right) && |left| + |right| <= 7
    ensures Assemble(Join(left, ':'), Some(Join(right, ':')))
            == Values(left) + NoughtGroups(8 - |left| - |right|) + Values(right)
  {
    GroupsRead(left);
    GroupsRead(right);
    AssembleParts(Join(left, ':'), Join(right, ':'), left, right);
    Filled(left, right, 8 - |left| - |right|);
  }

  lemma {:induction false} ExpandCompressed(left: seq<string>, right: seq<string>)
    requires LegalGroups(left) && LegalGroups(right) && |left| + |right| <= 7
    ensures Expand(Join(left, ':') + "::" + Join(right, ':'))
            == Values(left) + NoughtGroups(8 - |left| - |right|) + Values(right)
  {
    GroupsRead(left);
    GroupsRead(right);
    HeadAndRest(Join(left, ':'), Join(right, ':'));
    AssembleGroups(left, right);
  }

  // ---------------------------------------------------------------- main results

  lemma PlainExpands(a: Address)
    requires Legal(a) && a.tail.NoQuad?
    ensures Expand(Written(a)) == Meaning(a)
  {
    match a
    case Full(groups, _) =>
      assert Parts(groups, NoQuad) == groups;
      ExpandFull(groups);
    case Compressed(left, right, _) =>
      assert Parts(right, NoQuad) == right;
      ExpandCompressed(left, right);
      Regroup(Values(left), NoughtGroups(8 - |left| - |right|), Values(right), []);
  }

  /** Every legal text, compressed or not, with or without a quad, in any case, expands to its eight groups. */
  lemma ExpandsBack(a: Address)
    requires Legal(a)
    ensures Ipv6Groups(Written(a)) == Meaning(a) && |Meaning(a)| == 8
  {
    LowerWritten(a);
    QuadAsGroups(LowerOf(a));
    PlainExpands(WithoutQuad(LowerOf(a)));
  }

  lemma {:induction false} ValueBound(s: string, n: nat, k: nat)
    requires n < Pow2(k)
    ensures ValueFrom(s, 16, n) < Pow2(k + 4 * |s|)
  {
    if s != "" && DigitValue(s[0]) < 16 {
      assert Pow2(k + 4) == 2 * Pow2(k + 3) == 4 * Pow2(k + 2) == 8 * Pow2(k + 1) == 16 * Pow2(k);
      ValueBound(s[1..], n * 16 + DigitValue(s[0]), k + 4);
      assert k + 4 + 4 * |s[1..]| == k + 4 * |s|;
    } else {
      Pow2Monotone(k, k + 4 * |s|);
    }
  }

  lemma GroupBounds(groups: seq<string>)
    requires LegalGroups(groups)
    ensures forall i :: 0 <= i < |groups| ==> Values(groups)[i] < 0x1_0000
  {
    forall i | 0 <= i < |groups| ensures Values(groups)[i] < 0x1_0000 {
      ValueBound(groups[i], 0, 0);
      Pow2Monotone(4 * |groups[i]|, 16);
      Powers();
    }
  }

  /** Every group fits sixteen bits. */
  lemma MeaningBounds(a: Address)
    requires Legal(a)
    ensures forall i :: 0 <= i < |Meaning(a)| ==> Meaning(a)[i] < 0x1_0000
  {
    match a
    case Full(groups, _) => GroupBounds(groups);
    case Compressed(left, right, _) =>
      GroupBounds(left);
      GroupBounds(right);
  }

  lemma GroupPowers()
    ensures Pow2(6) == 0x40 && Pow2(8) == 0x100 && Pow2(9) == 0x200 && Pow2(16) == 0x1_0000
  {
    assert Pow2(6) == 0x40 && Pow2(8) == 0x100;
    Powers();
  }

  /** A mask of the leading bits of a group is the test for a range. */
  lemma TopBits(g: nat, k: nat, size: nat, base: nat)
    requires g < 0x1_0000 == Pow2(16) && k <= 16 && size == Pow2(k) && base % size == 0
    ensures size <= 0x1_0000 && (BitAnd(g, 0x1_0000 - size) == base <==> base <= g < base + size)
  {
    HighPart(g, 16, k);
    SameStart(g, base, size);
  }

  lemma {:induction false} UniqueLocal(g: nat)
    requires g < 0x1_0000
    ensures BitAnd(g, 0xfe00) == 0xfc00 <==> 0xfc00 <= g < 0xfe00
  {
    GroupPowers();
    TopBits(g, 9, 0x200, 0xfc00);
  }

  lemma {:induction false} LinkLocal(g: nat)
    requires g < 0x1_0000
    ensures BitAnd(g, 0xffc0) == 0xfe80 <==> 0xfe80 <= g < 0xfec0
  {
    GroupPowers();
    TopBits(g, 6, 0x40, 0xfe80);
  }

  lemma {:induction false} Multicast(g: nat)
    requires g < 0x1_0000
    ensures BitAnd(g, 0xff00) == 0xff00 <==> 0xff00 <= g
  {
    GroupPowers();
    TopBits(g, 8, 0x100, 0xff00);
  }

  /** Unique local, link local and multicast prefixes as ranges of the first group. */
  lemma PrefixRanges(g: nat)
    requires g < 0x1_0000
    ensures PrivatePrefix(g) <==> 0xfc00 <= g < 0xfe00 || 0xfe80 <= g < 0xfec0 || 0xff00 <= g
  {
    UniqueLocal(g);
    LinkLocal(g);
    Multicast(g);
  }

  lemma {:induction false} BytesOf(g: nat)
    ensures BitAnd(g, 0xff) == g % 256
  {
    LowBits(g, 8);
    Powers();
  }

  lemma SameDotted(a: nat, b: nat, c: nat, d: nat, q: Quad)
    requires a == q.a && b == q.b && c == q.c && d == q.d
    ensures DottedText(a, b, c, d) == QuadText(q)
  {
  }

  lemma CarriedIs(g: nat, h: nat, q: Quad)
    requires g == q.a * 256 + q.b && h == q.c * 256 + q.d
    ensures CarriedText(g, h) == QuadText(q)
  {
    BytesOf(g);
    BytesOf(h);
    SameDotted(g / 256, BitAnd(g, 0xff), h / 256, BitAnd(h, 0xff), q);
  }

  lemma SameVerdict(text: string, q: Quad)
    requires text == QuadText(q)
    ensures IsPrivateV4(text) == IsPrivateV4(QuadText(q)) == Listed(q)
  {
    PrivateV4IsListed(q);
  }

  /** The carried address is judged as itself. */
  lemma CarriedVerdict(g: nat, h: nat, q: Quad)
    requires g == q.a * 256 + q.b && h == q.c * 256 + q.d
    ensures IsPrivateV4(CarriedText(g, h)) == IsPrivateV4(QuadText(q)) == Listed(q)
  {
    CarriedIs(g, h, q);
    SameVerdict(CarriedText(g, h), q);
  }

  /** The groups of an address that carries an IPv4 address in its last two. */
  predicate Carries(g: seq<nat>, sixth: nat, q: Quad) {
    g == [0, 0, 0, 0, 0, sixth, q.a * 256 + q.b, q.c * 256 + q.d]
  }

  lemma MappedGroups(g: seq<nat>, q: Quad, carried: bool)
    requires Carries(g, 0xffff, q)
    ensures IsPrivateGroups(g, carried) <==> carried
  {
    PrefixRanges(0);
    assert g[..7][5] == 0xffff && g[5] == 0xffff;
    assert AllZero(g[..5]);
  }

  lemma VerdictOf(a: Address, g: seq<nat>)
    requires Legal(a) && g == Meaning(a)
    ensures |g| == 8 && IsPrivateV6(Written(a)) == IsPrivateGroups(g, IsPrivateV4(CarriedText(g[6], g[7])))
  {
    ExpandsBack(a);
  }

  /**
   * An IPv4-mapped address (section 2.5.5.2 of RFC 4291), however it is written, is private exactly when
   * the IPv4 address in it is.
   */
  lemma MappedIsPrivate(a: Address, q: Quad)
    requires Legal(a) && Carries(Meaning(a), 0xffff, q)
    ensures IsPrivateV6(Written(a)) <==> IsPrivateV4(QuadText(q))
  {
    VerdictOf(a, Meaning(a));
    MappedGroups(Meaning(a), q, IsPrivateV4(CarriedText(Meaning(a)[6], Meaning(a)[7])));
    CarriedVerdict(Meaning(a)[6], Meaning(a)[7], q);
  }

  /** The addresses refused, as ranges of their groups. */
  ghost predicate ListedV6(g: seq<nat>)
    requires |g| == 8
  {
    || ((forall i :: 0 <= i < 7 ==> g[i] == 0) && g[7] <= 1)
    || 0xfc00 <= g[0] < 0xfe00 || 0xfe80 <= g[0] < 0xfec0 || 0xff00 <= g[0]
    || ((forall i :: 0 <= i < 5 ==> g[i] == 0) && g[5] in {0, 0xffff} && exists q :: Carries(g, g[5], q) && Listed(q))
  }

  lemma CarriesSome(g: seq<nat>, q: Quad)
    requires |g| == 8 && AllZero(g[..5]) && g[6] < 0x1_0000 && g[7] < 0x1_0000
    ensures q == Quad(g[6] / 256, g[6] % 256, g[7] / 256, g[7] % 256) <==> Carries(g, g[5], q)
  {
    assert forall i :: 0 <= i < 5 ==> g[i] == g[..5][i];
  }

  /** The carried address, when the first six groups call for it. */
  predicate CarriedListed(g: seq<nat>)
    requires |g| == 8 && forall i :: 0 <= i < 8 ==> g[i] < 0x1_0000
  {
    Listed(Quad(g[6] / 256, g[6] % 256, g[7] / 256, g[7] % 256))
  }

  lemma GroupsAreListed(g: seq<nat>)
    requires |g| == 8 && forall i :: 0 <= i < 8 ==> g[i] < 0x1_0000
    ensures IsPrivateGroups(g, CarriedListed(g)) <==> ListedV6(g)
  {
    PrefixRanges(g[0]);
    assert AllZero(g) <==> AllZero(g[..7]) && g[7] == 0;
    if AllZero(g[..5]) {
      var q := Quad(g[6] / 256, g[6] % 256, g[7] / 256, g[7] % 256);
      forall p ensures p == q <==> Carries(g, g[5], p) { CarriesSome(g, p); }
    }
  }

  lemma Halves(g: nat)
    requires g < 0x1_0000
    ensures g / 256 < 256 && g == (g / 256) * 256 + g % 256
  {
  }

  lemma GroupsVerdict(g: seq<nat>)
    requires |g| == 8 && forall i :: 0 <= i < 8 ==> g[i] < 0x1_0000
    ensures IsPrivateV4(CarriedText(g[6], g[7])) == CarriedListed(g)
  {
    Halves(g[6]);
    Halves(g[7]);
    CarriedVerdict(g[6], g[7], Quad(g[6] / 256, g[6] % 256, g[7] / 256, g[7] % 256));
  }

  /** Legal text is judged by the address it stands for, however it is written. */
  lemma PrivateV6IsListed(a: Address)
    requires Legal(a)
    ensures |Meaning(a)| == 8 && (IsPrivateV6(Written(a)) <==> ListedV6(Meaning(a)))
  {
    VerdictOf(a, Meaning(a));
    MeaningBounds(a);
    GroupsVerdict(Meaning(a));
    GroupsAreListed(Meaning(a));
  }
}
