/** Which address a request is charged to (src/client_ip.rs): the right-to-left walk over the
    X-Forwarded-For headers through trusted proxies. Membership in the configured networks and address
    parsing are parameters, and header text is ASCII, so one character is one byte. */
module ClientIp {
  import opened Protocol

  const MAX_FORWARDED_FOR_BYTES: nat := 4 * 1024
  const MAX_FORWARDED_FOR_HOPS: nat := 32

  /** An IPv6 address as its upper and lower 64 bits. */
  datatype IpAddr = V4(bits: nat) | V6(hi: nat, lo: nat)

  datatype Resolution = Resolved(addr: IpAddr) | Malformed

  type Networks = IpAddr -> bool
  type Parser = string -> Option<IpAddr>

  /** An IPv4-mapped IPv6 address stands for the IPv4 address in it. */
  function Unmap(addr: IpAddr): IpAddr {
    if addr.V6? && addr.hi == 0 && addr.lo / 0x1_0000_0000 == 0xffff then V4(addr.lo % 0x1_0000_0000) else addr
  }

  /** IPv6 addresses are charged by their /64. */
  function Normalize(addr: IpAddr): IpAddr {
    if addr.V4? then addr else V6(addr.hi, 0)
  }

  predicate Trusted(nets: Networks, addr: IpAddr) {
    nets(Unmap(addr))
  }

  // ---------------------------------------------------------------- header text

  predicate IsBlank(c: char) {
    c == ' ' || '\t' <= c <= '\r'
  }

  function TrimStart(s: string): string {
    if s != "" && IsBlank(s[0]) then TrimStart(s[1..]) else s
  }

  function Trim(s: string): string
    decreases |s|
  {
    if s != "" && IsBlank(s[|s| - 1]) then Trim(s[..|s| - 1]) else TrimStart(s)
  }

  ghost predicate AllBlank(s: string) {
    forall i :: 0 <= i < |s| ==> IsBlank(s[i])
  }

  /** `s[i..j]` is `s` without the blanks at its ends. */
  ghost predicate IsTrimmed(s: string, i: nat, j: nat) {
    && i <= j <= |s| && AllBlank(s[..i]) && AllBlank(s[j..])
    && (i < j ==> !IsBlank(s[i]) && !IsBlank(s[j - 1]))
  }

  lemma {:induction false} TrimStartIsExact(s: string) returns (i: nat)
    ensures i <= |s| && TrimStart(s) == s[i..] && AllBlank(s[..i]) && (i < |s| ==> !IsBlank(s[i]))
  {
    if s != "" && IsBlank(s[0]) {
      var k := TrimStartIsExact(s[1..]);
      i := k + 1;
      assert s[1..][k..] == s[i..];
      assert s[..i] == [s[0]] + s[1..][..k];
    } else {
      i := 0;
    }
  }

  /** Trimming takes exactly the blanks off both ends. */
  lemma {:induction false} TrimIsExact(s: string) returns (i: nat, j: nat)
    ensures IsTrimmed(s, i, j) && Trim(s) == s[i..j]
    decreases |s|
  {
    if s != "" && IsBlank(s[|s| - 1]) {
      var init := s[..|s| - 1];
      i, j := TrimIsExact(init);
      assert init[i..j] == s[i..j] && init[..i] == s[..i];
      assert s[j..] == init[j..] + [s[|s| - 1]];
    } else {
      i := TrimStartIsExact(s);
      j := |s|;
      assert s[i..j] == s[i..];
    }
  }

  function Commas(s: string): nat {
    if s == "" then 0 else (if s[0] == ',' then 1 else 0) + Commas(s[1..])
  }

  /** The pieces between commas, left to right; a text without commas is one piece. */
  function Split(s: string): (pieces: seq<string>)
    ensures |pieces| == Commas(s) + 1
  {
    if s == "" then [""]
    else if s[0] == ',' then [""] + Split(s[1..])
    else
      var rest := Split(s[1..]);
      [[s[0]] + rest[0]] + rest[1..]
  }

  function Join(pieces: seq<string>): string
    requires pieces != []
  {
    if |pieces| == 1 then pieces[0] else pieces[0] + "," + Join(pieces[1..])
  }

  /** Splitting loses nothing and leaves no comma in a piece. */
  lemma {:induction false} JoinSplit(s: string)
    ensures Join(Split(s)) == s
    ensures forall i :: 0 <= i < |Split(s)| ==> ',' !in Split(s)[i]
  {
    if s != "" {
      var rest := Split(s[1..]);
      JoinSplit(s[1..]);
      if s[0] == ',' {
        assert Split(s)[1..] == rest;
      } else {
        assert Split(s)[1..] == rest[1..];
      }
    }
  }

  lemma {:induction false} SplitAtComma(x: string, y: string)
    ensures Split(x + "," + y) == Split(x) + Split(y)
  {
    if x == "" {
      assert (x + "," + y)[1..] == y;
    } else {
      assert (x + "," + y)[1..] == x[1..] + "," + y;
      SplitAtComma(x[1..], y);
    }
  }

  function Bytes(values: seq<string>): nat {
    if values == [] then 0 else Bytes(values[..|values| - 1]) + |values[|values| - 1]|
  }

  /** All hops of all header lines, in the order they were on the wire. */
  function Hops(values: seq<string>): seq<string> {
    if values == [] then [] else Hops(values[..|values| - 1]) + Split(values[|values| - 1])
  }

  predicate IsAddress(parse: Parser, hop: string) {
    Trim(hop) != "" && parse(Trim(hop)).Some?
  }

  predicate AllAddresses(parse: Parser, hops: seq<string>) {
    forall i :: 0 <= i < |hops| ==> IsAddress(parse, hops[i])
  }

  function AddressOf(parse: Parser, hop: string): IpAddr
    requires IsAddress(parse, hop)
  {
    Unmap(parse(Trim(hop)).value)
  }

  // ---------------------------------------------------------------- the flat specification

  /** Walking left from `peer`: the first address that is not a trusted proxy, else the leftmost hop. */
  function Walk(nets: Networks, parse: Parser, peer: IpAddr, hops: seq<string>): IpAddr
    requires AllAddresses(parse, hops)
    decreases |hops|
  {
    if hops == [] || !Trusted(nets, peer) then peer
    else Walk(nets, parse, AddressOf(parse, hops[|hops| - 1]), hops[..|hops| - 1])
  }

  predicate WithinHeaderLimits(values: seq<string>) {
    Bytes(values) <= MAX_FORWARDED_FOR_BYTES && |Hops(values)| <= MAX_FORWARDED_FOR_HOPS
  }

  /** What a request from `peerAddr` with these header lines resolves to. */
  function Answer(nets: Networks, parse: Parser, peerAddr: IpAddr, values: seq<string>): Resolution {
    var peer := Unmap(peerAddr);
    if !Trusted(nets, peer) || values == [] then Resolved(Normalize(peer))
    else if WithinHeaderLimits(values) && AllAddresses(parse, Hops(values)) then
      Resolved(Normalize(Walk(nets, parse, peer, Hops(values))))
    else Malformed
  }

  // ---------------------------------------------------------------- the relay's nested loops

  lemma {:induction false} LimitsGrow(values: seq<string>, i: nat)
    requires i <= |values|
    ensures Bytes(values[..i]) <= Bytes(values) && |Hops(values[..i])| <= |Hops(values)|
    decreases |values| - i
  {
    if i == |values| {
      assert values[..i] == values;
    } else {
      assert values[..i + 1][..i] == values[..i];
      LimitsGrow(values, i + 1);
    }
  }

  method CheckLimits(values: seq<string>) returns (ok: bool)
    ensures ok <==> WithinHeaderLimits(values)
  {
    var totalBytes, hopCount := 0, 0;
    for i := 0 to |values|
      invariant totalBytes == Bytes(values[..i]) && hopCount == |Hops(values[..i])|
      invariant totalBytes <= MAX_FORWARDED_FOR_BYTES && hopCount <= MAX_FORWARDED_FOR_HOPS
    {
      assert values[..i + 1][..i] == values[..i];
      LimitsGrow(values, i + 1);
      totalBytes := totalBytes + |values[i]|;
      if totalBytes > MAX_FORWARDED_FOR_BYTES {
        return false;
      }
      hopCount := hopCount + Commas(values[i]) + 1;
      if hopCount > MAX_FORWARDED_FOR_HOPS {
        return false;
      }
    }
    assert values[..|values|] == values;
    return true;
  }

  /** Where the walk stands: `hops` are still to come, `selected` is the current choice, and `walking`
      says whether it may still move. */
  ghost predicate Standing(nets: Networks, parse: Parser, peer: IpAddr, all: seq<string>, hops: seq<string>,
                           selected: IpAddr, walking: bool) {
    && hops <= all
    && (AllAddresses(parse, all) <==> AllAddresses(parse, hops))
    && (AllAddresses(parse, all) ==> Walk(nets, parse, peer, all) == if walking then Walk(nets, parse, selected, hops)
        else selected)
  }

  /** One element of the inner loop. */
  method VisitHop(nets: Networks, parse: Parser, element: string, selected: IpAddr, walking: bool)
    returns (ok: bool, selected': IpAddr, walking': bool)
    ensures ok <==> IsAddress(parse, element)
    ensures ok ==> selected' == if walking && Trusted(nets, selected) then AddressOf(parse, element) else selected
    ensures ok ==> walking' == (walking && Trusted(nets, selected))
  {
    ok, selected', walking' := true, selected, walking;
    var trimmed := Trim(element);
    if trimmed == "" {
      return false, selected, walking;
    }
    var addr := parse(trimmed);
    if addr.None? {
      return false, selected, walking;
    }
    if walking {
      if Trusted(nets, selected) {
        selected' := Unmap(addr.value);
      } else {
        walking' := false;
      }
    }
  }

  lemma NextHop(nets: Networks, parse: Parser, peer: IpAddr, all: seq<string>, hops: seq<string>, hop: string,
                selected: IpAddr, walking: bool)
    requires Standing(nets, parse, peer, all, hops + [hop], selected, walking) && IsAddress(parse, hop)
    ensures Standing(nets, parse, peer, all, hops,
                     if walking && Trusted(nets, selected) then AddressOf(parse, hop) else selected, walking
                         && Trusted(nets, selected))
  {
    assert (hops + [hop])[..|hops|] == hops;
    assert forall i :: 0 <= i < |hops| ==> (hops + [hop])[i] == hops[i];
    assert (hops + [hop])[|hops|] == hop;
  }

  lemma BadHop(parse: Parser, all: seq<string>, hops: seq<string>, hop: string)
    requires hops + [hop] <= all && !IsAddress(parse, hop)
    ensures !AllAddresses(parse, all)
  {
    assert all[|hops|] == hop;
  }

  /** The walk over one header line. */
  method VisitLine(nets: Networks, parse: Parser, ghost peer: IpAddr, ghost all: seq<string>, ghost before: seq<string>,
                   value: string,
                   selected: IpAddr, walking: bool) returns (ok: bool, selected': IpAddr, walking': bool)
    requires Standing(nets, parse, peer, all, before + Split(value), selected, walking)
    ensures ok ==> Standing(nets, parse, peer, all, before, selected', walking')
    ensures !ok ==> !AllAddresses(parse, all)
  {
    ok, selected', walking' := true, selected, walking;
    var elements := Split(value);
    assert elements[..|elements|] == elements;
    for j := |elements| downto 0
      invariant Standing(nets, parse, peer, all, before + elements[..j], selected', walking')
    {
      var chosen, moving := selected', walking';
      assert before + elements[..j + 1] == before + elements[..j] + [elements[j]];
      ok, selected', walking' := VisitHop(nets, parse, elements[j], selected', walking');
      if !ok {
        BadHop(parse, all, before + elements[..j], elements[j]);
        return;
      }
      NextHop(nets, parse, peer, all, before + elements[..j], elements[j], chosen, moving);
    }
    assert before + elements[..0] == before;
  }

  method Resolve(nets: Networks, parse: Parser, peerAddr: IpAddr, forwardedFor: seq<string>) returns (r: Resolution)
    ensures r == Answer(nets, parse, peerAddr, forwardedFor)
  {
    var peer := Unmap(peerAddr);
    if !Trusted(nets, peer) || forwardedFor == [] {
      return Resolved(Normalize(peer));
    }
    var within := CheckLimits(forwardedFor);
    if !within {
      return Malformed;
    }
    var selected, walking := peer, true;
    ghost var all := Hops(forwardedFor);
    assert forwardedFor[..|forwardedFor|] == forwardedFor;
    for i := |forwardedFor| downto 0
      invariant Standing(nets, parse, peer, all, Hops(forwardedFor[..i]), selected, walking)
    {
      assert forwardedFor[..i + 1][..i] == forwardedFor[..i];
      var ok;
      ok, selected, walking := VisitLine(nets, parse, peer, all, Hops(forwardedFor[..i]), forwardedFor[i], selected,
          walking);
      if !ok {
        return Malformed;
      }
    }
    return Resolved(Normalize(selected));
  }

  // ---------------------------------------------------------------- what the answer means

  /** The address `k` steps back: the peer itself, then the hops from the right. */
  function Step(parse: Parser, peer: IpAddr, hops: seq<string>, k: nat): IpAddr
    requires k <= |hops| && AllAddresses(parse, hops)
  {
    if k == 0 then peer else AddressOf(parse, hops[|hops| - k])
  }

  /** The walk ends at the first untrusted step, or at the leftmost hop when all before it are trusted. */
  lemma {:induction false} WalkIsFirstUntrusted(nets: Networks, parse: Parser, peer: IpAddr, hops: seq<string>)
    returns (k: nat)
    requires AllAddresses(parse, hops)
    ensures k <= |hops| && Walk(nets, parse, peer, hops) == Step(parse, peer, hops, k)
    ensures forall j: nat :: j < k ==> Trusted(nets, Step(parse, peer, hops, j))
    ensures k < |hops| ==> !Trusted(nets, Step(parse, peer, hops, k))
    decreases |hops|
  {
    if hops == [] || !Trusted(nets, peer) {
      k := 0;
    } else {
      var left := hops[..|hops| - 1];
      var next := AddressOf(parse, hops[|hops| - 1]);
      k := WalkIsFirstUntrusted(nets, parse, next, left);
      forall j: nat | j <= |left| ensures Step(parse, next, left, j) == Step(parse, peer, hops, j + 1) {
        assert j > 0 ==> left[|left| - j] == hops[|hops| - (j + 1)];
      }
      forall j: nat | j < k + 1 ensures Trusted(nets, Step(parse, peer, hops, j)) {
        assert j > 0 ==> Trusted(nets, Step(parse, next, left, j - 1));
      }
      k := k + 1;
    }
  }

  /** Once an untrusted hop is reached, nothing to its left matters. */
  lemma {:induction false} WalkStopsAtUntrusted(nets: Networks, parse: Parser, peer: IpAddr, left: seq<string>,
                                                right: seq<string>)
    requires AllAddresses(parse, left + right) && AllAddresses(parse, right) && right != []
    requires !Trusted(nets, AddressOf(parse, right[0]))
    ensures Walk(nets, parse, peer, left + right) == Walk(nets, parse, peer, right)
    decreases |right|
  {
    var last := right[|right| - 1];
    assert (left + right)[|left + right| - 1] == last;
    assert (left + right)[..|left + right| - 1] == left + right[..|right| - 1];
    if Trusted(nets, peer) && |right| > 1 {
      WalkStopsAtUntrusted(nets, parse, AddressOf(parse, last), left, right[..|right| - 1]);
    }
  }

  /** Hops left of the address that was charged decide only whether the request is well formed: two
      requests that agree from an untrusted hop rightwards resolve alike when both resolve. */
  lemma LeftHopsDoNotMatter(nets: Networks, parse: Parser, peerAddr: IpAddr, one: seq<string>, two: seq<string>,
                            left1: seq<string>, left2: seq<string>, right: seq<string>)
    requires Hops(one) == left1 + right && Hops(two) == left2 + right
    requires right != [] && AllAddresses(parse, right) && !Trusted(nets, AddressOf(parse, right[0]))
    requires Answer(nets, parse, peerAddr, one).Resolved? && Answer(nets, parse, peerAddr, two).Resolved?
    ensures Answer(nets, parse, peerAddr, one) == Answer(nets, parse, peerAddr, two)
  {
    if Trusted(nets, Unmap(peerAddr)) {
      WalkStopsAtUntrusted(nets, parse, Unmap(peerAddr), left1, right);
      WalkStopsAtUntrusted(nets, parse, Unmap(peerAddr), left2, right);
    }
  }

  lemma {:induction false} HopsAppend(first: seq<string>, second: seq<string>)
    ensures Hops(first + second) == Hops(first) + Hops(second)
    ensures Bytes(first + second) == Bytes(first) + Bytes(second)
    decreases |second|
  {
    if second == [] {
      assert first + second == first;
    } else {
      var both, init, last := first + second, second[..|second| - 1], second[|second| - 1];
      assert both[..|both| - 1] == first + init && both[|both| - 1] == last;
      HopsAppend(first, init);
      assert Hops(both) == Hops(first + init) + Split(last);
      assert Hops(first) + Hops(init) + Split(last) == Hops(first) + (Hops(init) + Split(last));
    }
  }

  lemma OneLine(x: string)
    ensures Hops([x]) == Split(x) && Bytes([x]) == |x|
  {
    assert [x][..0] == [];
  }

  lemma TwoLines(x: string, y: string)
    ensures Hops([x + "," + y]) == Hops([x, y]) && Bytes([x + "," + y]) == Bytes([x, y]) + 1
  {
    OneLine(x);
    OneLine(y);
    OneLine(x + "," + y);
    assert [x, y] == [x] + [y];
    HopsAppend([x], [y]);
    SplitAtComma(x, y);
  }

  lemma SplitLine(above: seq<string>, x: string, y: string, below: seq<string>)
    ensures Hops(above + [x + "," + y] + below) == Hops(above + [x, y] + below)
    ensures Bytes(above + [x + "," + y] + below) == Bytes(above + [x, y] + below) + 1
  {
    TwoLines(x, y);
    HopsAppend(above + [x + "," + y], below);
    HopsAppend(above + [x, y], below);
    HopsAppend(above, [x + "," + y]);
    HopsAppend(above, [x, y]);
  }

  /** Splitting a header line at a comma into two lines (section 5.3 of RFC 9110) changes the answer
      exactly when the peer is a trusted proxy, the hops are few enough and well formed, and that comma
      was the one byte too many. */
  lemma SplittingALine(nets: Networks, parse: Parser, peerAddr: IpAddr, above: seq<string>, x: string, y: string,
                       below: seq<string>)
    ensures var joined, split := above + [x + "," + y] + below, above + [x, y] + below;
            Answer(nets, parse, peerAddr, joined) != Answer(nets, parse, peerAddr, split) <==>
              && Trusted(nets, Unmap(peerAddr))
              && Bytes(joined) == MAX_FORWARDED_FOR_BYTES + 1
              && |Hops(joined)| <= MAX_FORWARDED_FOR_HOPS
              && AllAddresses(parse, Hops(joined))
  {
    SplitLine(above, x, y, below);
  }

  function Spaces(n: nat): string {
    seq(n, _ => ' ')
  }

  lemma {:induction false} TrimStartPadded(n: nat, s: string)
    ensures TrimStart(Spaces(n) + s) == TrimStart(s)
  {
    if n == 0 {
      assert Spaces(n) + s == s;
    } else {
      assert (Spaces(n) + s)[1..] == Spaces(n - 1) + s;
      TrimStartPadded(n - 1, s);
    }
  }

  lemma {:induction false} TrimPadded(n: nat, s: string)
    requires Trim(s) != ""
    ensures Trim(Spaces(n) + s) == Trim(s)
    decreases |s|
  {
    var padded := Spaces(n) + s;
    if s != "" && IsBlank(s[|s| - 1]) {
      assert padded[..|padded| - 1] == Spaces(n) + s[..|s| - 1];
      TrimPadded(n, s[..|s| - 1]);
    } else if s != "" {
      TrimStartPadded(n, s);
    }
  }

  lemma {:induction false} SplitWithoutComma(s: string)
    requires ',' !in s
    ensures Split(s) == [s]
  {
    if s != "" {
      SplitWithoutComma(s[1..]);
      assert [s[0]] + s[1..] == s;
    }
  }

  /** Two hops that together with their comma are one byte over the limit. */
  lemma TwoHopsAtTheLimit(nets: Networks, parse: Parser, peerAddr: IpAddr, x: string, y: string)
    requires Trusted(nets, Unmap(peerAddr)) && IsAddress(parse, x) && IsAddress(parse, y) && ',' !in x && ',' !in y
    requires |x| + |y| == MAX_FORWARDED_FOR_BYTES
    ensures Answer(nets, parse, peerAddr, [x + "," + y]) == Malformed
    ensures Answer(nets, parse, peerAddr, [x, y]).Resolved?
  {
    TwoLines(x, y);
    OneLine(x);
    OneLine(y);
    HopsAppend([x], [y]);
    assert [x, y] == [x] + [y];
    SplitWithoutComma(x);
    SplitWithoutComma(y);
    assert Hops([x, y]) == [x, y];
  }

  /** It happens: any acceptable hop, padded with spaces and repeated to a line of 4097 bytes, is refused
      as one line and resolves as two. */
  lemma OneByteTooMany(nets: Networks, parse: Parser, peerAddr: IpAddr, hop: string)
    requires Trusted(nets, Unmap(peerAddr)) && IsAddress(parse, hop) && ',' !in hop
               && 2 * |hop| <= MAX_FORWARDED_FOR_BYTES
    ensures var padded := Spaces(MAX_FORWARDED_FOR_BYTES - 2 * |hop|) + hop;
            && Answer(nets, parse, peerAddr, [padded + "," + hop]) == Malformed
            && Answer(nets, parse, peerAddr, [padded, hop]).Resolved?
  {
    var n := MAX_FORWARDED_FOR_BYTES - 2 * |hop|;
    TrimPadded(n, hop);
    TwoHopsAtTheLimit(nets, parse, peerAddr, Spaces(n) + hop, hop);
  }

  // ---------------------------------------------------------------- who shares a bucket

  const TWO_32: nat := 0x1_0000_0000

  /** `addr` is the IPv4 address `bits`, plain or in its IPv6 form ::ffff:a.b.c.d. */
  predicate Denotes(addr: IpAddr, bits: nat) {
    addr == V4(bits) || (bits < TWO_32 && addr == V6(0, 0xffff * TWO_32 + bits))
  }

  /** Two addresses are charged alike exactly when they denote the same IPv4 address, or are both genuine
      IPv6 addresses of one /64. */
  lemma ChargedAlike(a: IpAddr, b: IpAddr)
    ensures Normalize(Unmap(a)) == Normalize(Unmap(b)) <==>
              || (exists bits :: Denotes(a, bits) && Denotes(b, bits))
              || (&& a.V6? && b.V6? && a.hi == b.hi
                  && !(exists bits :: Denotes(a, bits)) && !(exists bits :: Denotes(b, bits)))
  {
    UnmapIsExact(a);
    UnmapIsExact(b);
  }

  lemma UnmapIsExact(addr: IpAddr)
    ensures (exists bits :: Denotes(addr, bits)) <==> Unmap(addr).V4?
    ensures Unmap(addr).V4? ==> Denotes(addr, Unmap(addr).bits)
    ensures forall bits :: Denotes(addr, bits) ==> Unmap(addr) == V4(bits)
    ensures Unmap(addr).V6? ==> Unmap(addr) == addr
  {
    forall bits | Denotes(addr, bits) ensures Unmap(addr) == V4(bits) {
      if addr.V6? {
        assert (0xffff * TWO_32 + bits) / TWO_32 == 0xffff && (0xffff * TWO_32 + bits) % TWO_32 == bits;
      }
    }
    if Unmap(addr).V4? {
      assert Denotes(addr, Unmap(addr).bits);
    }
  }

  /** Without a trusted proxy in front, the headers are not looked at, and what is charged is the peer. */
  lemma UntrustedIsItself(nets: Networks, parse: Parser, peerAddr: IpAddr, values: seq<string>)
    requires !Trusted(nets, Unmap(peerAddr))
    ensures Answer(nets, parse, peerAddr, values) == Answer(nets, parse, peerAddr, [])
    ensures Answer(nets, parse, peerAddr, values) == Resolved(Normalize(Unmap(peerAddr)))
  {
  }
}
