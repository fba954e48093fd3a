/** Which address a request is charged to: the walk over X-Forwarded-For. Parsing and printing of addresses, and what a
    configured network contains, are the Go library's and stay parameters. */
module ClientIp {
  import opened Common

  type Ip = Bytes

  type Network = Ip -> bool

  datatype Library = Library(
    hostOf: string -> Option<string>,
    parse: string -> Option<Ip>,
    show: Ip -> string)

  /** The parts of a request that are read; an absent header is the empty string. */
  datatype Request = Request(remoteAddr: string, forwardedFor: string)

  // ---- Header text ----

  function Split(s: string): (hops: seq<string>)
    ensures hops != []
  {
    if s == "" then [""]
    else
      Attach(s[0], Split(s[1..]))
  }

  function Attach(c: char, hops: seq<string>): (r: seq<string>)
    requires hops != []
    ensures r != []
  {
    if c == ',' then [""] + hops else [[c] + hops[0]] + hops[1..]
  }

  predicate IsSpace(c: char) {
    || c == ' ' || 9 <= c as int <= 13
    || c as int in {0x85, 0xA0, 0x1680, 0x2028, 0x2029, 0x202F, 0x205F, 0x3000}
    || 0x2000 <= c as int <= 0x200A
  }

  function TrimLeft(s: string): string {
    if s != "" && IsSpace(s[0]) then TrimLeft(s[1..]) else s
  }

  function TrimRight(s: string): string {
    if s != "" && IsSpace(s[|s| - 1]) then TrimRight(s[..|s| - 1]) else s
  }

  function TrimSpace(s: string): string {
    TrimRight(TrimLeft(s))
  }

  // ---- Specification ----

  predicate Trusted(networks: seq<Network>, ip: Ip) {
    exists i :: 0 <= i < |networks| && networks[i](ip)
  }

  // The address of a hop that is one and that no trusted network contains.
  function Outside(l: Library, networks: seq<Network>, hop: string): Option<Ip> {
    var ip := l.parse(TrimSpace(hop));
    if ip.Some? && Trusted(networks, ip.value) then None else ip
  }

  function LastOutside(l: Library, networks: seq<Network>, hops: seq<string>): Option<Ip> {
    if hops == [] then None
    else
      var last := Outside(l, networks, hops[|hops| - 1]);
      if last.Some? then last else LastOutside(l, networks, hops[..|hops| - 1])
  }

  function FirstText(hops: seq<string>): Option<string> {
    if hops == [] then None
    else if TrimSpace(hops[0]) != "" then Some(TrimSpace(hops[0]))
    else FirstText(hops[1..])
  }

  function PeerHost(l: Library, r: Request): string {
    match l.hostOf(r.remoteAddr)
    case Some(host) => host
    case None => r.remoteAddr
  }

  predicate PeerTrusted(l: Library, networks: Option<seq<Network>>, r: Request) {
    && networks.Some? && networks.value != []
    && l.parse(PeerHost(l, r)).Some?
    && Trusted(networks.value, l.parse(PeerHost(l, r)).value)
  }

  function Spec(l: Library, networks: Option<seq<Network>>, r: Request): string {
    if !PeerTrusted(l, networks, r) || r.forwardedFor == "" then PeerHost(l, r)
    else
      var hops := Split(r.forwardedFor);
      match LastOutside(l, networks.value, hops)
      case Some(ip) => l.show(ip)
      case None =>
        match FirstText(hops)
        case Some(t) => t
        case None => PeerHost(l, r)
  }

  // ---- The code ----

  method IpInCidrs(ip: Ip, networks: seq<Network>) returns (found: bool)
    ensures found <==> exists i :: 0 <= i < |networks| && networks[i](ip)
  {
    for i := 0 to |networks|
      invariant forall k :: 0 <= k < i ==> !networks[k](ip)
    {
      if networks[i](ip) {
        return true;
      }
    }
    return false;
  }

  method ClientIP(l: Library, networks: Option<seq<Network>>, r: Request) returns (client: string)
    ensures client == Spec(l, networks, r)
  {
    var peerHost := PeerHost(l, r);
    var peer := l.parse(peerHost);
    if networks.None? || networks.value == [] || peer.None? {
      return peerHost;
    }
    var trusted := IpInCidrs(peer.value, networks.value);
    if !trusted || r.forwardedFor == "" {
      return peerHost;
    }
    var hops := Split(r.forwardedFor);
    var hop := LastHop(l, networks.value, hops);
    if hop.Some? {
      return l.show(hop.value);
    }
    client := Fallback(hops, peerHost);
  }

  method LastHop(l: Library, networks: seq<Network>, hops: seq<string>) returns (hop: Option<Ip>)
    ensures hop == LastOutside(l, networks, hops)
  {
    var i := |hops| - 1;
    assert hops[..i + 1] == hops;
    while i >= 0
      invariant -1 <= i < |hops|
      invariant LastOutside(l, networks, hops) == LastOutside(l, networks, hops[..i + 1])
    {
      assert hops[..i + 1][..i] == hops[..i];
      var ip := l.parse(TrimSpace(hops[i]));
      if ip.Some? {
        var inside := IpInCidrs(ip.value, networks);
        if !inside {
          return ip;
        }
      }
      i := i - 1;
    }
    return None;
  }

  method Fallback(hops: seq<string>, peerHost: string) returns (client: string)
    ensures client == match FirstText(hops) case Some(t) => t case None => peerHost
  {
    for i := 0 to |hops|
      invariant FirstText(hops) == FirstText(hops[i..])
    {
      var t := TrimSpace(hops[i]);
      if t != "" {
        return t;
      }
    }
    return peerHost;
  }

  // ---- What the header text means ----

  predicate Blank(s: string) {
    forall i :: 0 <= i < |s| ==> IsSpace(s[i])
  }

  predicate Tight(s: string) {
    s != "" ==> !IsSpace(s[0]) && !IsSpace(s[|s| - 1])
  }

  // `core` stands at position `i` of `s`, with nothing but spaces before and after it.
  predicate Around(s: string, i: nat, core: string) {
    && i + |core| <= |s| && s[i..i + |core|] == core
    && (forall k :: 0 <= k < i ==> IsSpace(s[k]))
    && forall k :: i + |core| <= k < |s| ==> IsSpace(s[k])
  }

  // `core` is what is left of `s` when the spaces around it are taken away.
  ghost predicate Core(s: string, core: string) {
    Tight(core) && exists i: nat :: Around(s, i, core)
  }

  lemma {:induction false} TrimLeftSplits(s: string) returns (i: nat)
    ensures i <= |s| && TrimLeft(s) == s[i..] && (forall k :: 0 <= k < i ==> IsSpace(s[k]))
    ensures TrimLeft(s) != "" ==> !IsSpace(TrimLeft(s)[0])
  {
    i := 0;
    if s != "" && IsSpace(s[0]) {
      var rest := TrimLeftSplits(s[1..]);
      i := rest + 1;
      forall k | 0 <= k < i ensures IsSpace(s[k]) {
        assert k > 0 ==> s[k] == s[1..][k - 1];
      }
    }
  }

  lemma {:induction false} TrimRightSplits(s: string) returns (n: nat)
    ensures n <= |s| && TrimRight(s) == s[..n] && (forall k :: n <= k < |s| ==> IsSpace(s[k]))
    ensures n > 0 ==> !IsSpace(s[n - 1])
  {
    n := |s|;
    if s != "" && IsSpace(s[|s| - 1]) {
      n := TrimRightSplits(s[..|s| - 1]);
    }
  }

  lemma TrimIsCore(s: string)
    ensures Core(s, TrimSpace(s))
  {
    var i := TrimLeftSplits(s);
    var n := TrimRightSplits(s[i..]);
    assert forall k :: i + n <= k < |s| ==> s[k] == s[i..][k - i];
    assert Around(s, i, TrimSpace(s));
  }

  lemma Ends(s: string, i: nat, core: string)
    requires Around(s, i, core) && Tight(core) && core != ""
    ensures !IsSpace(s[i]) && !IsSpace(s[i + |core| - 1])
  {
    assert s[i..i + |core|][0] == core[0] && s[i..i + |core|][|core| - 1] == core[|core| - 1];
  }

  lemma CoreIsUnique(s: string, core: string, other: string)
    requires Core(s, core) && Core(s, other)
    ensures core == other
  {
    var i: nat :| Around(s, i, core);
    var j: nat :| Around(s, j, other);
    if core != "" {
      Ends(s, i, core);
    }
    if other != "" {
      Ends(s, j, other);
    }
    assert core != "" && other != "" ==> i == j && |core| == |other|;
  }

  // Trimming takes away exactly the spaces around a text.
  lemma TrimExactly(s: string, core: string)
    ensures TrimSpace(s) == core <==> Core(s, core)
  {
    TrimIsCore(s);
    if Core(s, core) {
      CoreIsUnique(s, core, TrimSpace(s));
    }
  }

  // The hop, spaces aside, is that address, and no trusted network contains it.
  ghost predicate IsOutside(l: Library, networks: seq<Network>, hop: string, ip: Ip) {
    && (exists core :: Core(hop, core) && l.parse(core) == Some(ip))
    && forall i :: 0 <= i < |networks| ==> !networks[i](ip)
  }

  lemma OutsideExactly(l: Library, networks: seq<Network>, hop: string, ip: Ip)
    ensures Outside(l, networks, hop) == Some(ip) <==> IsOutside(l, networks, hop, ip)
  {
    TrimIsCore(hop);
    if IsOutside(l, networks, hop, ip) {
      var core :| Core(hop, core) && l.parse(core) == Some(ip);
      CoreIsUnique(hop, core, TrimSpace(hop));
    }
  }

  // Hop `i` is the first that is not blank, and that is its text.
  ghost predicate Leftmost(hops: seq<string>, i: nat, text: string) {
    && i < |hops| && Core(hops[i], text) && text != ""
    && forall k :: 0 <= k < i ==> Blank(hops[k])
  }

  lemma BlankTrims(s: string)
    ensures TrimSpace(s) == "" <==> Blank(s)
  {
    TrimIsCore(s);
    if Blank(s) {
      assert Around(s, 0, "");
      CoreIsUnique(s, "", TrimSpace(s));
    }
  }

  lemma {:induction false} FirstIsLeftmost(hops: seq<string>) returns (i: nat)
    requires FirstText(hops).Some?
    ensures Leftmost(hops, i, FirstText(hops).value)
    decreases |hops|
  {
    i := 0;
    BlankTrims(hops[0]);
    TrimIsCore(hops[0]);
    if TrimSpace(hops[0]) == "" {
      var rest := FirstIsLeftmost(hops[1..]);
      i := rest + 1;
      forall k | 0 <= k < i ensures Blank(hops[k]) {
        assert k > 0 ==> hops[k] == hops[1..][k - 1];
      }
    }
  }

  lemma {:induction false} LeftmostIsFirst(hops: seq<string>, i: nat, text: string)
    requires Leftmost(hops, i, text)
    ensures FirstText(hops) == Some(text)
    decreases |hops|
  {
    BlankTrims(hops[0]);
    if i == 0 {
      TrimExactly(hops[0], text);
    } else {
      assert forall k :: 0 <= k < i - 1 ==> hops[1..][k] == hops[k + 1];
      LeftmostIsFirst(hops[1..], i - 1, text);
    }
  }

  // ---- What the walk means ----

  // Hop `i` is that address, and no hop further right is one outside the trusted networks.
  ghost predicate Rightmost(l: Library, networks: seq<Network>, hops: seq<string>, i: nat, ip: Ip) {
    && i < |hops| && IsOutside(l, networks, hops[i], ip)
    && forall k, other :: i < k < |hops| ==> !IsOutside(l, networks, hops[k], other)
  }

  lemma {:induction false} LastIsRightmost(l: Library, networks: seq<Network>, hops: seq<string>) returns (i: nat)
    requires LastOutside(l, networks, hops).Some?
    ensures Rightmost(l, networks, hops, i, LastOutside(l, networks, hops).value)
    decreases |hops|
  {
    i := |hops| - 1;
    OutsideExactly(l, networks, hops[i], LastOutside(l, networks, hops).value);
    if Outside(l, networks, hops[i]).None? {
      NotOutside(l, networks, hops[i]);
      i := LastIsRightmost(l, networks, hops[..|hops| - 1]);
      assert forall k :: i < k < |hops| - 1 ==> hops[k] == hops[..|hops| - 1][k];
    }
  }

  lemma NotOutside(l: Library, networks: seq<Network>, hop: string)
    ensures Outside(l, networks, hop).None? <==> forall ip :: !IsOutside(l, networks, hop, ip)
  {
    forall ip ensures Outside(l, networks, hop) == Some(ip) <==> IsOutside(l, networks, hop, ip) {
      OutsideExactly(l, networks, hop, ip);
    }
    if Outside(l, networks, hop).Some? {
      assert IsOutside(l, networks, hop, Outside(l, networks, hop).value);
    }
  }

  lemma {:induction false} RightmostIsLast(l: Library, networks: seq<Network>, hops: seq<string>, i: nat, ip: Ip)
    requires Rightmost(l, networks, hops, i, ip)
    ensures LastOutside(l, networks, hops) == Some(ip)
    decreases |hops|
  {
    OutsideExactly(l, networks, hops[i], ip);
    NotOutside(l, networks, hops[|hops| - 1]);
    if i < |hops| - 1 {
      RightmostIsLast(l, networks, hops[..|hops| - 1], i, ip);
    }
  }

  // ---- Whom to believe ----

  // The host part of the peer's address, or all of it if there is no port to split off.
  predicate IsPeer(l: Library, r: Request, host: string) {
    l.hostOf(r.remoteAddr) == Some(host) || (l.hostOf(r.remoteAddr).None? && host == r.remoteAddr)
  }

  // The peer is an address inside a configured network.
  ghost predicate IsProxy(l: Library, networks: Option<seq<Network>>, host: string) {
    && networks.Some?
    && exists i :: 0 <= i < |networks.value| && l.parse(host).Some? && networks.value[i](l.parse(host).value)
  }

  lemma PeerExactly(l: Library, networks: Option<seq<Network>>, r: Request, host: string)
    requires IsPeer(l, r, host)
    ensures PeerHost(l, r) == host && (PeerTrusted(l, networks, r) <==> IsProxy(l, networks, host))
  {
  }

  lemma Padded(before: string, hop: string, after: string)
    requires forall c :: c in before + after ==> c == ' ' || c == '\t'
    requires hop != "" && !IsSpace(hop[0]) && !IsSpace(hop[|hop| - 1])
    ensures Core(before + hop + after, hop)
  {
    var s := before + hop + after;
    forall k | 0 <= k < |before| || |before| + |hop| <= k < |s| ensures IsSpace(s[k]) {
      assert s[k] in before + after;
    }
    assert Around(s, |before|, hop);
  }

  // What a trusted proxy appends on the right, after a comma and whatever spaces, is the client, if it is an address
  // outside the trusted networks; nothing on its left matters.
  lemma AppendedHopIsClient(l: Library, networks: Option<seq<Network>>, remoteAddr: string, host: string,
                            prefix: string, before: string, hop: string, after: string, ip: Ip)
    requires IsPeer(l, Request(remoteAddr, ""), host) && IsProxy(l, networks, host)
    requires ',' !in before + hop + after && l.parse(hop) == Some(ip)
    requires forall c :: c in before + after ==> c == ' ' || c == '\t'
    requires hop != "" && !IsSpace(hop[0]) && !IsSpace(hop[|hop| - 1])
    requires forall i :: 0 <= i < |networks.value| ==> !networks.value[i](ip)
    ensures Spec(l, networks, Request(remoteAddr, prefix + "," + before + hop + after)) == l.show(ip)
  {
    var last := before + hop + after;
    var r := Request(remoteAddr, prefix + "," + last);
    assert prefix + "," + before + hop + after == r.forwardedFor;
    PeerExactly(l, networks, r, host);
    SplitConcat(prefix, last);
    OneHop(last);
    LastOutsideConcat(l, networks.value, Split(prefix), [last]);
    Padded(before, hop, after);
    OutsideExactly(l, networks.value, last, ip);
    assert [last][..0] == [];
  }

  // With a trusted peer the client is the rightmost outside hop, printed in the library's own form, if there is one.
  lemma ClientIsRightmostOutsideHop(l: Library, networks: Option<seq<Network>>, r: Request, host: string, i: nat,
                                   ip: Ip)
    requires IsPeer(l, r, host) && IsProxy(l, networks, host) && r.forwardedFor != ""
    requires Rightmost(l, networks.value, Split(r.forwardedFor), i, ip)
    ensures Spec(l, networks, r) == l.show(ip)
  {
    PeerExactly(l, networks, r, host);
    RightmostIsLast(l, networks.value, Split(r.forwardedFor), i, ip);
  }

  // Without one it is the first hop that is not blank, whatever that says, and failing that the peer.
  lemma ClientWithoutOutsideHop(l: Library, networks: Option<seq<Network>>, r: Request, host: string)
    requires IsPeer(l, r, host) && IsProxy(l, networks, host) && r.forwardedFor != ""
    requires forall i: nat, ip :: !Rightmost(l, networks.value, Split(r.forwardedFor), i, ip)
    ensures var hops := Split(r.forwardedFor);
            && (forall i: nat, text :: Leftmost(hops, i, text) ==> Spec(l, networks, r) == text)
            && ((forall k :: 0 <= k < |hops| ==> Blank(hops[k])) ==> Spec(l, networks, r) == host)
  {
    var hops := Split(r.forwardedFor);
    PeerExactly(l, networks, r, host);
    if LastOutside(l, networks.value, hops).Some? {
      var i := LastIsRightmost(l, networks.value, hops);
      assert false;
    }
    forall i: nat, text | Leftmost(hops, i, text) ensures FirstText(hops) == Some(text) {
      LeftmostIsFirst(hops, i, text);
    }
    if FirstText(hops).Some? {
      var i := FirstIsLeftmost(hops);
      assert Core(hops[i], FirstText(hops).value);
      BlankTrims(hops[i]);
      TrimExactly(hops[i], FirstText(hops).value);
    }
  }

  lemma AttachConcat(c: char, a: seq<string>, b: seq<string>)
    requires a != []
    ensures Attach(c, a + b) == Attach(c, a) + b
  {
    assert (a + b)[1..] == a[1..] + b;
  }

  lemma {:induction false} SplitConcat(a: string, b: string)
    ensures Split(a + "," + b) == Split(a) + Split(b)
  {
    var s := a + "," + b;
    if a == "" {
      assert s[1..] == b;
    } else {
      assert s[1..] == a[1..] + "," + b;
      SplitConcat(a[1..], b);
      AttachConcat(a[0], Split(a[1..]), Split(b));
    }
  }

  lemma {:induction false} LastOutsideConcat(l: Library, networks: seq<Network>, a: seq<string>, b: seq<string>)
    ensures LastOutside(l, networks, a + b)
         == if LastOutside(l, networks, b).Some? then LastOutside(l, networks, b) else LastOutside(l, networks, a)
    decreases |b|
  {
    if b == [] {
      assert a + b == a;
    } else {
      assert (a + b)[..|a + b| - 1] == a + b[..|b| - 1];
      LastOutsideConcat(l, networks, a, b[..|b| - 1]);
    }
  }

  function Prepended(prefix: string, r: Request): Request {
    r.(forwardedFor := prefix + "," + r.forwardedFor)
  }

  // Nothing written to the left of the header can change the result.
  ghost predicate PrefixIndependent(l: Library, networks: Option<seq<Network>>, r: Request) {
    forall prefix :: Spec(l, networks, Prepended(prefix, r)) == Spec(l, networks, r)
  }

  // Whatever the header says, the peer is the client.
  ghost predicate HeaderIgnored(l: Library, networks: Option<seq<Network>>, remoteAddr: string) {
    forall header :: Spec(l, networks, Request(remoteAddr, header)) == PeerHost(l, Request(remoteAddr, header))
  }

  // The header never matters exactly if the peer is not trusted. (`a` is any outside address other than the peer.)
  lemma HeaderNeedsTrustedPeer(l: Library, networks: Option<seq<Network>>, remoteAddr: string, a: string)
    requires networks.Some? && ',' !in a && a != "" && Outside(l, networks.value, a).Some?
    requires l.show(Outside(l, networks.value, a).value) != PeerHost(l, Request(remoteAddr, a))
    ensures HeaderIgnored(l, networks, remoteAddr) <==> !PeerTrusted(l, networks, Request(remoteAddr, a))
  {
    if PeerTrusted(l, networks, Request(remoteAddr, a)) {
      OneHop(a);
      assert [a][..0] == [];
      assert Spec(l, networks, Request(remoteAddr, a)) != PeerHost(l, Request(remoteAddr, a));
    } else {
      forall header
        ensures Spec(l, networks, Request(remoteAddr, header)) == PeerHost(l, Request(remoteAddr, header))
      {
        assert PeerHost(l, Request(remoteAddr, header)) == PeerHost(l, Request(remoteAddr, a));
      }
    }
  }

  lemma Unforgeable(l: Library, networks: Option<seq<Network>>, r: Request, prefix: string)
    requires PeerTrusted(l, networks, r) ==> LastOutside(l, networks.value, Split(r.forwardedFor)).Some?
    requires l.parse("").None?
    ensures Spec(l, networks, Prepended(prefix, r)) == Spec(l, networks, r)
  {
    SplitConcat(prefix, r.forwardedFor);
    if PeerTrusted(l, networks, r) {
      LastOutsideConcat(l, networks.value, Split(prefix), Split(r.forwardedFor));
    }
  }

  // Text that, written to the left, makes the result a given outside address.
  lemma Forged(l: Library, networks: Option<seq<Network>>, r: Request, hop: string, ip: Ip)
    requires PeerTrusted(l, networks, r) && LastOutside(l, networks.value, Split(r.forwardedFor)).None?
    requires ',' !in hop && Outside(l, networks.value, hop) == Some(ip)
    ensures Spec(l, networks, Prepended(hop, r)) == l.show(ip)
  {
    SplitConcat(hop, r.forwardedFor);
    OneHop(hop);
    LastOutsideConcat(l, networks.value, [hop], Split(r.forwardedFor));
  }

  lemma {:induction false} OneHop(hop: string)
    requires ',' !in hop
    ensures Split(hop) == [hop]
  {
    if hop != "" {
      OneHop(hop[1..]);
      assert [hop[0]] + hop[1..] == hop;
    }
  }

  // The result cannot be forged from the left exactly if the peer is untrusted or some hop already present is an
  // outside address. (`a` and `b` are any two outside addresses with different texts; the empty string is not one.)
  lemma ForgeryNeedsNoOutsideHop(l: Library, networks: Option<seq<Network>>, r: Request, a: string, b: string)
    requires l.parse("").None? && networks.Some? && ',' !in a && ',' !in b
    requires Outside(l, networks.value, a).Some? && Outside(l, networks.value, b).Some?
    requires l.show(Outside(l, networks.value, a).value) != l.show(Outside(l, networks.value, b).value)
    ensures PrefixIndependent(l, networks, r) <==>
            (PeerTrusted(l, networks, r) ==> LastOutside(l, networks.value, Split(r.forwardedFor)).Some?)
  {
    if PeerTrusted(l, networks, r) && LastOutside(l, networks.value, Split(r.forwardedFor)).None? {
      Forged(l, networks, r, a, Outside(l, networks.value, a).value);
      Forged(l, networks, r, b, Outside(l, networks.value, b).value);
      assert Spec(l, networks, Prepended(a, r)) != Spec(l, networks, Prepended(b, r));
    } else {
      forall prefix ensures Spec(l, networks, Prepended(prefix, r)) == Spec(l, networks, r) {
        Unforgeable(l, networks, r, prefix);
      }
    }
  }
}
