/** backend/app/core/machine_id.py: the hardware-derived machine identifier. What the machine
    reports (the 48-bit node number, the serial number, the board and machine UUIDs, the host
    name, a random UUID for the fallback) is a `Probes` value, SHA-256 is a parameter, and the
    cache file is the one field of `MachineIdStore`. */
module MachineId {
  import opened Wrappers
  import Py

  // ---------------------------------------------------------------------------
  // Lowercase hexadecimal
  // ---------------------------------------------------------------------------

  /** A character of "0123456789abcdef". */
  predicate IsHexDigit(c: char) {
    ('0' <= c <= '9') || ('a' <= c <= 'f')
  }

  predicate AllHex(s: string) {
    forall i :: 0 <= i < |s| ==> IsHexDigit(s[i])
  }

  function HexDigit(d: nat): (c: char)
    requires d < 16
    ensures IsHexDigit(c)
  {
    if d < 10 then ('0' as int + d) as char else ('a' as int + d - 10) as char
  }

  function DigitValue(c: char): (d: nat)
    requires IsHexDigit(c)
    ensures d < 16 && HexDigit(d) == c
  {
    if c <= '9' then c as int - '0' as int else c as int - 'a' as int + 10
  }

  /** `format(n, "x")`: no leading zeros, a single "0" for zero. */
  function Hex(n: nat): (r: string)
    ensures r != [] && AllHex(r)
  {
    if n < 16 then [HexDigit(n)] else Hex(n / 16) + [HexDigit(n % 16)]
  }

  /** The number a string of hex digits denotes. */
  function HexValue(s: string): nat
    requires AllHex(s)
  {
    if s == [] then 0 else HexValue(s[..|s| - 1]) * 16 + DigitValue(s[|s| - 1])
  }

  function Pow16(k: nat): (p: nat)
    ensures p >= 1
  {
    if k == 0 then 1 else 16 * Pow16(k - 1)
  }

  function Zeros(k: nat): (r: string)
    ensures |r| == k && AllHex(r)
  {
    seq(k, _ => '0')
  }

  /** `f"{n:0{w}x}"`: the digits of `n`, padded with zeros on the left to width `w`. */
  function Padded(n: nat, w: nat): (r: string)
    ensures AllHex(r) && |r| >= w
  {
    var h := Hex(n);
    if |h| >= w then h else Zeros(w - |h|) + h
  }

  /** Formatting and reading back are inverse. */
  lemma {:induction false} HexValueHex(n: nat)
    ensures HexValue(Hex(n)) == n
  {
    if n >= 16 {
      var h := Hex(n / 16);
      HexValueHex(n / 16);
      assert (h + [HexDigit(n % 16)])[..|h|] == h;
    }
  }

  lemma {:induction false} HexValueZeros(k: nat, h: string)
    requires AllHex(h)
    ensures HexValue(Zeros(k) + h) == HexValue(h)
    decreases |h|
  {
    var s := Zeros(k) + h;
    if h == [] {
      assert s == Zeros(k);
      ZerosValue(k);
    } else {
      var init := h[..|h| - 1];
      assert s[..|s| - 1] == Zeros(k) + init;
      HexValueZeros(k, init);
    }
  }

  lemma {:induction false} ZerosValue(k: nat)
    ensures HexValue(Zeros(k)) == 0
  {
    if k > 0 {
      assert Zeros(k)[..k - 1] == Zeros(k - 1);
      ZerosValue(k - 1);
    }
  }

  /** Below `16^w`, `n` has at most `w` digits. */
  lemma {:induction false} HexLength(n: nat, w: nat)
    requires w >= 1 && n < Pow16(w)
    ensures |Hex(n)| <= w
  {
    if n >= 16 {
      assert w >= 2;
      assert n / 16 < Pow16(w - 1);
      HexLength(n / 16, w - 1);
    }
  }

  lemma {:induction false} PaddedValue(n: nat, w: nat)
    ensures HexValue(Padded(n, w)) == n
  {
    var h := Hex(n);
    assert HexValue(h) == n by {
      HexValueHex(n);
    }
    if |h| < w {
      assert Padded(n, w) == Zeros(w - |h|) + h;
      assert HexValue(Zeros(w - |h|) + h) == HexValue(h) by {
        HexValueZeros(w - |h|, h);
      }
    }
  }

  /** Two digit strings of one length with one value are the same string. */
  lemma {:induction false} HexUnique(a: string, b: string)
    requires AllHex(a) && AllHex(b) && |a| == |b| && HexValue(a) == HexValue(b)
    ensures a == b
  {
    if a != [] {
      var k := |a| - 1;
      assert AllHex(a[..k]) && AllHex(b[..k]);
      var x, y := HexValue(a[..k]), HexValue(b[..k]);
      var da, db := DigitValue(a[k]), DigitValue(b[k]);
      DigitSplit(x, y, da, db);
      assert a[k] == HexDigit(da) == HexDigit(db) == b[k];
      HexUnique(a[..k], b[..k]);
      assert a == a[..k] + [a[k]] && b == b[..k] + [b[k]];
    }
  }

  /** The last digit and the value of the others are determined by the whole value. */
  lemma DigitSplit(x: nat, y: nat, da: nat, db: nat)
    requires da < 16 && db < 16 && x * 16 + da == y * 16 + db
    ensures da == db && x == y
  {
  }

  // ---------------------------------------------------------------------------
  // The MAC address (`_get_mac_address`)
  // ---------------------------------------------------------------------------

  /** The 48-bit range of `uuid.getnode()`. */
  const NodeLimit: nat := 0x1_0000_0000_0000

  const AllZero: string := "00:00:00:00:00:00"
  const AllOnes: string := "ff:ff:ff:ff:ff:ff"

  /** `mac_hex[i:i+2] for i in range(2 * k, 12, 2)` */
  function Pairs(h: string, k: nat): (r: seq<string>)
    requires |h| >= 12 && k <= 6
    ensures |r| == 6 - k
    decreases 6 - k
  {
    if k == 6 then [] else [h[2 * k..2 * k + 2]] + Pairs(h, k + 1)
  }

  /** `":".join(...)` over the first twelve digits. */
  function MacText(h: string): string
    requires |h| >= 12
  {
    Py.Join(":", Pairs(h, 0))
  }

  /** `_get_mac_address`: the formatted address, or nothing for the all-zero and all-ones
      addresses. */
  function MacAddress(node: nat): (r: Option<string>)
    ensures r.Some? ==> r.value != "" && r.value != AllZero && r.value != AllOnes
    ensures node < NodeLimit && r.Some? ==> |r.value| == 17 && ParseMac(r.value) == Some(node)
  {
    var h := Padded(node, 12);
    Py.JoinStarts(":", Pairs(h, 0));
    if node < NodeLimit then MacRoundTrip(node); MacChoice(MacText(h))
    else MacChoice(MacText(h))
  }

  /** The all-zero and all-ones addresses are refused. */
  function MacChoice(m: string): Option<string> {
    if m != AllZero && m != AllOnes then Some(m) else None
  }

  /** `s` without its colons. */
  function NoColons(s: string): (r: string)
    ensures |r| <= |s|
  {
    if s == [] then [] else (if s[0] == ':' then [] else [s[0]]) + NoColons(s[1..])
  }

  lemma {:induction false} NoColonsAppend(a: string, b: string)
    ensures NoColons(a + b) == NoColons(a) + NoColons(b)
  {
    if a != [] {
      assert (a + b)[0] == a[0];
      assert (a + b)[1..] == a[1..] + b;
      NoColonsAppend(a[1..], b);
      var x := if a[0] == ':' then [] else [a[0]];
      assert NoColons(a + b) == x + NoColons(a[1..] + b);
      assert x + (NoColons(a[1..]) + NoColons(b)) == (x + NoColons(a[1..])) + NoColons(b);
    } else {
      assert a + b == b;
    }
  }

  lemma {:induction false} NoColonsOfHex(s: string)
    requires AllHex(s)
    ensures NoColons(s) == s
  {
    if s != [] {
      NoColonsOfHex(s[1..]);
    }
  }

  /** Reads an address back: twelve hex digits once the colons are gone. */
  function ParseMac(m: string): Option<nat> {
    var d := NoColons(m);
    if |d| == 12 && AllHex(d) then Some(HexValue(d)) else None
  }

  /** Dropping the colons of the joined pairs leaves the digits from pair `k` on. */
  lemma {:induction false} PairsText(h: string, k: nat)
    requires |h| == 12 && AllHex(h) && k < 6
    ensures NoColons(Py.Join(":", Pairs(h, k))) == h[2 * k..]
    decreases 6 - k
  {
    var j := 2 * k;
    var p := h[j..j + 2];
    assert NoColons(p) == p by {
      assert IsHexDigit(h[j]) && IsHexDigit(h[j + 1]);
      assert AllHex(p);
      NoColonsOfHex(p);
    }
    if k < 5 {
      var rest := Py.Join(":", Pairs(h, k + 1));
      assert NoColons(rest) == h[j + 2..] by {
        PairsText(h, k + 1);
      }
      PairsCons(h, k);
      NoColonsSplice(p, rest);
      assert h[j..] == p + h[j + 2..];
    } else {
      assert Pairs(h, k) == [p];
      assert h[j..] == p;
    }
  }

  /** The joined pairs from `k` on are pair `k`, a colon, and the joined rest. */
  lemma PairsCons(h: string, k: nat)
    requires |h| >= 12 && k < 5
    ensures Py.Join(":", Pairs(h, k)) == h[2 * k..2 * k + 2] + (":" + Py.Join(":", Pairs(h, k + 1)))
  {
    var p := h[2 * k..2 * k + 2];
    assert [p] + Pairs(h, k + 1) == Pairs(h, k);
    Py.JoinCons(":", p, Pairs(h, k + 1));
  }

  lemma {:induction false} NoColonsSplice(p: string, rest: string)
    requires NoColons(p) == p
    ensures NoColons(p + (":" + rest)) == p + NoColons(rest)
  {
    var s := ":" + rest;
    assert NoColons(s) == NoColons(rest) by {
      assert s[0] == ':' && s[1..] == rest;
    }
    NoColonsAppend(p, s);
  }

  /** Six pairs joined by five colons. */
  lemma {:induction false} PairsLength(h: string, k: nat)
    requires |h| >= 12 && k < 6
    ensures |Py.Join(":", Pairs(h, k))| == 3 * (6 - k) - 1
    decreases 6 - k
  {
    if k < 5 {
      PairsLength(h, k + 1);
      PairsCons(h, k);
    } else {
      assert Pairs(h, k) == [h[10..12]];
    }
  }

  /** The address of a 48-bit node is seventeen characters whose digits read back as the node. */
  lemma MacRoundTrip(node: nat)
    requires node < NodeLimit
    ensures |Padded(node, 12)| == 12
    ensures |MacText(Padded(node, 12))| == 17
    ensures ParseMac(MacText(Padded(node, 12))) == Some(node)
  {
    Twelve();
    HexLength(node, 12);
    var h := Padded(node, 12);
    PairsText(h, 0);
    PairsLength(h, 0);
    PaddedValue(node, 12);
  }

  lemma Twelve()
    ensures Pow16(12) == NodeLimit
  {
  }

  /** Six pairs of `c` joined by colons. */
  function Uniform(c: char, n: nat): string
    requires n >= 1
  {
    if n == 1 then [c, c] else [c, c] + ":" + Uniform(c, n - 1)
  }

  lemma {:induction false} UniformText(c: char, h: string, k: nat)
    requires h == seq(12, _ => c) && k < 6
    ensures Py.Join(":", Pairs(h, k)) == Uniform(c, 6 - k)
    decreases 6 - k
  {
    assert h[2 * k..2 * k + 2] == [c, c];
    if k < 5 {
      UniformText(c, h, k + 1);
      Py.JoinCons(":", [c, c], Pairs(h, k + 1));
    }
  }

  /** The two rejected addresses are the texts of twelve zeros and twelve f's. */
  lemma RejectedTexts()
    ensures MacText(seq(12, _ => '0')) == AllZero && MacText(seq(12, _ => 'f')) == AllOnes
  {
    UniformText('0', seq(12, _ => '0'), 0);
    UniformText('f', seq(12, _ => 'f'), 0);
    UniformLiteral('0', AllZero);
    UniformLiteral('f', AllOnes);
  }

  lemma UniformLiteral(c: char, m: string)
    requires m == [c, c, ':', c, c, ':', c, c, ':', c, c, ':', c, c, ':', c, c]
    ensures Uniform(c, 6) == m
  {
    assert Uniform(c, 2) == [c, c, ':', c, c];
    assert Uniform(c, 4) == [c, c, ':', c, c, ':'] + Uniform(c, 2);
  }

  lemma {:induction false} AllFValue(k: nat)
    ensures HexValue(seq(k, _ => 'f')) == Pow16(k) - 1
  {
    if k > 0 {
      assert seq(k, _ => 'f')[..k - 1] == seq(k - 1, _ => 'f');
      AllFValue(k - 1);
    }
  }

  /** For a 48-bit node, the address is refused exactly when the node is all zeros or all ones. */
  lemma MacRejection(node: nat)
    requires node < NodeLimit
    ensures MacAddress(node).None? <==> node == 0 || node == NodeLimit - 1
    ensures MacAddress(node).Some? ==> ParseMac(MacAddress(node).value) == Some(node)
  {
    RejectedTexts();
    EdgePadding();
    MacRoundTrip(node);
    if node != 0 && node != NodeLimit - 1 {
      assert MacText(Padded(node, 12)) != AllZero by {
        MacRoundTrip(0);
      }
      assert MacText(Padded(node, 12)) != AllOnes by {
        MacRoundTrip(NodeLimit - 1);
      }
    }
  }

  /** The digits of the two edge nodes. */
  lemma EdgePadding()
    ensures Padded(0, 12) == seq(12, _ => '0')
    ensures Padded(NodeLimit - 1, 12) == seq(12, _ => 'f')
  {
    assert Hex(0) == "0";
    assert Padded(0, 12) == Zeros(11) + "0";
    var f := seq(12, _ => 'f');
    AllFValue(12);
    Twelve();
    MacRoundTrip(NodeLimit - 1);
    PaddedValue(NodeLimit - 1, 12);
    HexUnique(Padded(NodeLimit - 1, 12), f);
  }

  // ---------------------------------------------------------------------------
  // Digests and the cached identifier
  // ---------------------------------------------------------------------------

  newtype Byte = b: int | 0 <= b < 256

  /** A SHA-256 digest. */
  type Digest = d: seq<Byte> | |d| == 32 witness seq(32, _ => 0)

  /** `hexdigest()`: two lowercase digits per byte. */
  function HexDigest(d: seq<Byte>): (r: string)
    ensures |r| == 2 * |d| && AllHex(r)
  {
    if d == [] then []
    else
      var b := d[|d| - 1] as int;
      HexDigest(d[..|d| - 1]) + [HexDigit(b / 16), HexDigit(b % 16)]
  }

  /** The check the cache file's content must pass: sixty-four characters of
      "0123456789abcdef". */
  predicate IsMachineId(s: string) {
    |s| == 64 && AllHex(s)
  }

  /** `_read_from_cache`: the stripped content of the file, when it is an identifier. */
  function ReadCache(file: Option<string>): (r: Option<string>)
    ensures r.Some? ==> file.Some? && IsMachineId(r.value) && r.value == Py.Strip(file.value)
    ensures file.Some? && IsMachineId(Py.Strip(file.value)) ==> r.Some?
  {
    match file
    case None => None
    case Some(text) => var id := Py.Strip(text); if IsMachineId(id) then Some(id) else None
  }

  /** Every hex digest of a SHA-256 digest passes the cache check, so a saved identifier is read
      back as it was written. */
  lemma DigestIsId(d: Digest)
    ensures IsMachineId(HexDigest(d))
    ensures ReadCache(Some(HexDigest(d))) == Some(HexDigest(d))
  {
    var s := HexDigest(d);
    Py.StripStripped(s);
  }

  // ---------------------------------------------------------------------------
  // Features (`_generate_machine_id`)
  // ---------------------------------------------------------------------------

  /** What the machine reports: `platform.system()`, `uuid.getnode()`, the serial number, the
      board UUID, the machine UUID, `platform.node()` and `uuid.uuid4().hex`. */
  datatype Probes = Probes(system: string, node: nat, serial: Option<string>, board: Option<string>,
    machineUuid: Option<string>, hostname: string, randomHex: string)

  datatype Feature = Feature(tag: string, value: string)

  /** `f"{tag}:{value}"` */
  function Text(f: Feature): string {
    f.tag + ":" + f.value
  }

  function Texts(fs: seq<Feature>): (r: seq<string>)
    ensures |r| == |fs| && forall i :: 0 <= i < |fs| ==> r[i] == Text(fs[i])
  {
    seq(|fs|, i requires 0 <= i < |fs| => Text(fs[i]))
  }

  /** A probe's answer counts when it is present and not empty. */
  predicate Truthy(v: Option<string>) {
    v.Some? && v.value != ""
  }

  function Found(tag: string, v: Option<string>): seq<Feature> {
    if Truthy(v) then [Feature(tag, v.value)] else []
  }

  /** The platform-specific second feature: the serial number on macOS, the board UUID on Linux. */
  function PlatformFeature(p: Probes): seq<Feature> {
    if p.system == "Darwin" then Found("serial", p.serial)
    else if p.system == "Linux" then Found("board", p.board)
    else []
  }

  /** The hardware features found, in the order they are tried, `mac` being the address found. */
  function ProbedWith(mac: Option<string>, p: Probes): seq<Feature> {
    Found("mac", mac) + PlatformFeature(p) + Found("uuid", p.machineUuid) + Found("host", Some(p.hostname))
  }

  /** The features hashed: those found, or the random one when none was. */
  function FeaturesWith(mac: Option<string>, p: Probes): seq<Feature> {
    var found := ProbedWith(mac, p);
    if found == [] then [Feature("random", p.randomHex)] else found
  }

  function Probed(p: Probes): seq<Feature> {
    ProbedWith(MacAddress(p.node), p)
  }

  function Features(p: Probes): seq<Feature> {
    FeaturesWith(MacAddress(p.node), p)
  }

  /** The position of each kind of feature in the order the generator tries them. */
  function Rank(tag: string): nat {
    if tag == "mac" then 0
    else if tag == "serial" || tag == "board" then 1
    else if tag == "uuid" then 2
    else if tag == "host" then 3
    else 4
  }

  lemma OrderWith(mac: Option<string>, p: Probes)
    ensures var fs := FeaturesWith(mac, p);
      && 1 <= |fs| <= 4
      && (forall i, j :: 0 <= i < j < |fs| ==> Rank(fs[i].tag) < Rank(fs[j].tag))
      && (fs[0].tag == "random" <==> ProbedWith(mac, p) == [])
      && (p.hostname != "" ==> fs[|fs| - 1] == Feature("host", p.hostname))
  {
    var found := ProbedWith(mac, p);
    ProbedRanked(mac, p);
    if found != [] {
      assert found[0] in found;
    }
  }

  /** The hardware features come in increasing rank, at most one of each. */
  lemma ProbedRanked(mac: Option<string>, p: Probes)
    ensures RankedBelow(ProbedWith(mac, p), 3) && |ProbedWith(mac, p)| <= 4
    ensures p.hostname != "" ==> ProbedWith(mac, p)[|ProbedWith(mac, p)| - 1] == Feature("host", p.hostname)
  {
    var a, b := Found("mac", mac), PlatformFeature(p);
    var c, d := Found("uuid", p.machineUuid), Found("host", Some(p.hostname));
    assert Ranked(a, 0) && Ranked(b, 1) && Ranked(c, 2) && Ranked(d, 3);
    RankedJoin(a, b, 0, 1);
    RankedJoin(a + b, c, 1, 2);
    RankedJoin(a + b + c, d, 2, 3);
  }

  /** Every feature of `fs`, at most one, has rank `k`. */
  predicate Ranked(fs: seq<Feature>, k: nat) {
    |fs| <= 1 && forall f :: f in fs ==> Rank(f.tag) == k
  }

  /** Features in strictly increasing rank, all of rank at most `k`. */
  predicate RankedBelow(fs: seq<Feature>, k: nat) {
    (forall i, j :: 0 <= i < j < |fs| ==> Rank(fs[i].tag) < Rank(fs[j].tag))
    && forall f :: f in fs ==> Rank(f.tag) <= k
  }

  /** Appending a part of a higher rank keeps the ranks increasing. */
  lemma RankedJoin(front: seq<Feature>, part: seq<Feature>, k: nat, k': nat)
    requires k < k' && (RankedBelow(front, k) || (Ranked(front, k) && k == 0)) && Ranked(part, k')
    ensures RankedBelow(front + part, k') && |front + part| <= |front| + 1
  {
    var r := front + part;
    forall i, j | 0 <= i < j < |r| ensures Rank(r[i].tag) < Rank(r[j].tag) {
      if j < |front| {
        assert r[i] == front[i] && r[j] == front[j];
      } else {
        assert r[i] in front && r[j] in part;
      }
    }
  }

  /** The features in the order mac, serial or board, uuid, host, with the random one alone and
      only when nothing else was found; a non-empty host name rules the fallback out. */
  lemma FeaturesOrder(p: Probes)
    ensures 1 <= |Features(p)| <= 4
    ensures forall i, j :: 0 <= i < j < |Features(p)| ==> Rank(Features(p)[i].tag) < Rank(Features(p)[j].tag)
    ensures Features(p)[0].tag == "random" <==> Probed(p) == []
    ensures Probed(p) == [] ==> Features(p) == [Feature("random", p.randomHex)]
    ensures p.hostname != "" ==> Features(p)[|Features(p)| - 1] == Feature("host", p.hostname)
  {
    OrderWith(MacAddress(p.node), p);
  }

  lemma InFound(f: Feature, tag: string, x: Option<string>)
    ensures f in Found(tag, x) <==> f.tag == tag && Truthy(x) && x.value == f.value
  {
  }

  lemma {:induction false} SourcesWith(mac: Option<string>, p: Probes, v: string)
    ensures Feature("mac", v) in FeaturesWith(mac, p) <==> mac == Some(v) && v != ""
    ensures Feature("serial", v) in FeaturesWith(mac, p) <==> p.system == "Darwin" && p.serial == Some(v) && v != ""
    ensures Feature("board", v) in FeaturesWith(mac, p) <==> p.system == "Linux" && p.board == Some(v) && v != ""
    ensures Feature("uuid", v) in FeaturesWith(mac, p) <==> p.machineUuid == Some(v) && v != ""
    ensures Feature("host", v) in FeaturesWith(mac, p) <==> p.hostname == v && v != ""
  {
    var a, b, c, d := Found("mac", mac), PlatformFeature(p), Found("uuid", p.machineUuid), Found("host", Some(p.hostname));
    assert ProbedWith(mac, p) == a + b + c + d;
    forall f: Feature | f.tag != "random"
      ensures f in FeaturesWith(mac, p) <==> f in a || f in b || f in c || f in d
    {
    }
    forall f: Feature
      ensures f in b <==>
        || (p.system == "Darwin" && f.tag == "serial" && Truthy(p.serial) && p.serial.value == f.value)
        || (p.system == "Linux" && f.tag == "board" && Truthy(p.board) && p.board.value == f.value)
    {
    }
  }

  /** Each feature comes from its own probe, and the platform decides which of the serial number
      and the board UUID is consulted. */
  lemma FeatureSources(p: Probes, v: string)
    ensures Feature("mac", v) in Features(p) <==> MacAddress(p.node) == Some(v)
    ensures Feature("serial", v) in Features(p) <==> p.system == "Darwin" && p.serial == Some(v) && v != ""
    ensures Feature("board", v) in Features(p) <==> p.system == "Linux" && p.board == Some(v) && v != ""
    ensures Feature("uuid", v) in Features(p) <==> p.machineUuid == Some(v) && v != ""
    ensures Feature("host", v) in Features(p) <==> p.hostname == v && v != ""
  {
    var m := MacAddress(p.node);
    SourcesWith(m, p, v);
    if m.Some? {
      assert m.value != "" by {
        MacNonEmpty(p.node);
      }
    }
  }

  lemma MacNonEmpty(node: nat)
    ensures MacAddress(node).Some? ==> MacAddress(node).value != ""
  {
    var h := Padded(node, 12);
    Py.JoinStarts(":", Pairs(h, 0));
  }

  /** `"|".join(features)` */
  function Combined(p: Probes): string {
    Py.Join("|", Texts(Features(p)))
  }

  /** The identifier `_generate_machine_id` returns. */
  function GeneratedId(p: Probes, sha256: string -> Digest): string {
    HexDigest(sha256(Combined(p)))
  }

  lemma TextsSnoc(fs: seq<Feature>, f: Feature)
    ensures Texts(fs + [f]) == Texts(fs) + [Text(f)]
  {
  }

  /** The body of `_generate_machine_id` up to the join. */
  method CollectFeatures(p: Probes) returns (features: seq<string>)
    ensures features == Texts(Features(p))
  {
    features := [];
    ghost var found: seq<Feature> := [];
    var mac := MacAddress(p.node);
    if Truthy(mac) {
      TextsSnoc(found, Feature("mac", mac.value));
      features := features + [Text(Feature("mac", mac.value))];
      found := found + [Feature("mac", mac.value)];
    }
    ghost var f1 := found;
    assert f1 == Found("mac", mac);
    if p.system == "Darwin" {
      if Truthy(p.serial) {
        TextsSnoc(found, Feature("serial", p.serial.value));
        features := features + [Text(Feature("serial", p.serial.value))];
        found := found + [Feature("serial", p.serial.value)];
      }
    } else if p.system == "Linux" {
      if Truthy(p.board) {
        TextsSnoc(found, Feature("board", p.board.value));
        features := features + [Text(Feature("board", p.board.value))];
        found := found + [Feature("board", p.board.value)];
      }
    }
    ghost var f2 := found;
    assert f2 == f1 + PlatformFeature(p);
    assert features == Texts(found);
    if Truthy(p.machineUuid) {
      TextsSnoc(found, Feature("uuid", p.machineUuid.value));
      features := features + [Text(Feature("uuid", p.machineUuid.value))];
      found := found + [Feature("uuid", p.machineUuid.value)];
    }
    ghost var f3 := found;
    assert f3 == f2 + Found("uuid", p.machineUuid);
    if p.hostname != "" {
      TextsSnoc(found, Feature("host", p.hostname));
      features := features + [Text(Feature("host", p.hostname))];
      found := found + [Feature("host", p.hostname)];
    }
    assert found == f3 + Found("host", Some(p.hostname));
    assert found == ProbedWith(mac, p);
    assert features == Texts(found);
    if features == [] {
      TextsSnoc(found, Feature("random", p.randomHex));
      features := features + [Text(Feature("random", p.randomHex))];
      found := found + [Feature("random", p.randomHex)];
    }
    assert found == FeaturesWith(mac, p);
  }

  /** `_generate_machine_id` */
  method GenerateMachineId(p: Probes, sha256: string -> Digest) returns (id: string)
    ensures id == GeneratedId(p, sha256)
    ensures IsMachineId(id)
  {
    var features := CollectFeatures(p);
    var combined := Py.Join("|", features);
    id := HexDigest(sha256(combined));
    DigestIsId(sha256(combined));
  }

  /** Two reports of one machine that differ only in the random UUID give one identifier, once
      any hardware feature was found; with none, the identifier is the hash of the random one. */
  lemma GeneratedIdStable(p: Probes, q: Probes, sha256: string -> Digest)
    requires q == p.(randomHex := q.randomHex)
    ensures Probed(p) != [] ==> GeneratedId(p, sha256) == GeneratedId(q, sha256)
    ensures Probed(p) == [] ==> GeneratedId(p, sha256) == HexDigest(sha256("random:" + p.randomHex))
  {
    assert Probed(p) == Probed(q);
    if Probed(p) == [] {
      assert Text(Feature("random", p.randomHex)) == "random:" + p.randomHex;
      assert Texts(Features(p)) == ["random:" + p.randomHex];
    }
  }

  // ---------------------------------------------------------------------------
  // The cache (`get_machine_id`, `clear_cache`)
  // ---------------------------------------------------------------------------

  /** The cache file `~/.mac_agent/machine_id`: its text, or nothing when it does not exist. */
  class MachineIdStore {
    var file: Option<string>

    constructor(file: Option<string>)
      ensures this.file == file
    {
      this.file := file;
    }

    /** `get_machine_id`: a valid cached identifier is returned and nothing is generated or
        written; otherwise a new one is generated and, unless the write fails, saved. Either way
        the result passes the cache check, and after a successful save the next call returns the
        same identifier. */
    method GetMachineId(p: Probes, sha256: string -> Digest, writable: bool) returns (id: string)
      modifies this
      ensures IsMachineId(id)
      ensures ReadCache(old(file)).Some? ==> id == ReadCache(old(file)).value && file == old(file)
      ensures ReadCache(old(file)).None? ==> id == GeneratedId(p, sha256)
      ensures ReadCache(old(file)).None? ==> file == if writable then Some(id) else old(file)
      ensures ReadCache(old(file)).Some? || writable ==> ReadCache(file) == Some(id)
    {
      var cached := ReadCache(file);
      if cached.Some? {
        return cached.value;
      }
      id := GenerateMachineId(p, sha256);
      if writable {
        file := Some(id);
        DigestIsId(sha256(Combined(p)));
      }
    }

    /** `clear_cache`: reports whether there was a file to delete; afterwards there is none. */
    method ClearCache() returns (cleared: bool)
      modifies this
      ensures cleared <==> old(file).Some?
      ensures file.None?
    {
      cleared := file.Some?;
      file := None;
    }
  }
}
