/** The framed artifact of the durable transport (app/s3_git_bundle_artifact.py): `_encode`, `_decode`
    and the bounded chunked `_download`.  Canonical JSON, its parser, the digest and the shape checks
    of a parsed header are functions of the host language and come in as parameters. */
module ArtifactCodec {
  import opened Wrappers
  import opened Texts

  type Byte = x: int | 0 <= x < 256
  type Bytes = seq<Byte>
  type Digest = nat

  datatype CodecError = IntegrityInvalid | ManifestInvalid | ResultInvalid | TooLarge | ReadInvalid

  /** The manifest of the task: everything but its workspace and the digests of the files before the change. */
  datatype Manifest = Manifest(identity: nat, workspaceSha: nat, before: map<nat, Digest>)

  datatype Header = Header(
    manifest: Manifest, generation: int, attempt: nat, effect: nat, producedSha: nat, details: nat,
    bundleSha: Digest, bundleSize: int)

  /** What the codec takes from the host language. */
  datatype Host = Host(
    canonical: Header -> Bytes, parse: Bytes -> Option<Header>, hash: Bytes -> Digest, wellFormed: Header -> bool)

  /** Parsing what was printed gives it back. */
  ghost predicate RoundTrips(host: Host) {
    forall h :: host.parse(host.canonical(h)) == Some(h)
  }

  const HEADER_LIMIT := 65536

  function Magic(): Bytes {
    [67, 87, 80, 45, 71, 73, 84, 45, 66, 85, 78, 68, 76, 69, 45, 86, 49, 10]
  }

  const MAGIC_LENGTH := 18

  /** The signature spells its name and version, and a line end. */
  lemma MagicSpells()
    ensures |Magic()| == MAGIC_LENGTH == |"CWP-GIT-BUNDLE-V1\n"|
    ensures forall i :: 0 <= i < MAGIC_LENGTH ==> Magic()[i] as char == "CWP-GIT-BUNDLE-V1\n"[i]
  {
  }

  /** `struct.pack(">I", n)`. */
  function BigEndian(n: nat): Bytes
    requires n < 0x1_0000_0000
  {
    [n / 0x100_0000, n / 0x1_0000 % 0x100, n / 0x100 % 0x100, n % 0x100]
  }

  /** `struct.unpack(">I", b)`. */
  function Unpack(b: Bytes): nat
    requires |b| == 4
  {
    var w: int, x: int, y: int, z: int := b[0], b[1], b[2], b[3];
    w * 0x100_0000 + x * 0x1_0000 + y * 0x100 + z
  }

  lemma UnpackPacks(n: nat)
    requires n < 0x1_0000_0000
    ensures Unpack(BigEndian(n)) == n
  {
  }

  lemma PackUnpacks(b: Bytes)
    requires |b| == 4
    ensures Unpack(b) < 0x1_0000_0000 && BigEndian(Unpack(b)) == b
  {
    var n := Unpack(b);
    var w: int, x: int, y: int := b[0], b[1], b[2];
    assert n / 0x100 == w * 0x1_0000 + x * 0x100 + y;
    assert n / 0x1_0000 == w * 0x100 + x;
    assert n / 0x100_0000 == w;
  }

  /** The most significant byte comes first: the first byte that differs decides which number is less. */
  lemma BigEndianOrders(m: nat, n: nat)
    requires m < n < 0x1_0000_0000
    ensures exists k :: 0 <= k < 4 && BigEndian(m)[..k] == BigEndian(n)[..k] && BigEndian(m)[k] < BigEndian(n)[k]
  {
    var a, b := BigEndian(m), BigEndian(n);
    UnpackPacks(m);
    UnpackPacks(n);
    var k := if a[0] != b[0] then 0 else if a[1] != b[1] then 1 else if a[2] != b[2] then 2 else 3;
    assert a[..k] == b[..k] && a[k] < b[k];
  }

  function Frame(header: Bytes, bundle: Bytes): Bytes
    requires |header| <= HEADER_LIMIT
  {
    Magic() + BigEndian(|header|) + header + bundle
  }

  function Encode(host: Host, h: Header, bundle: Bytes, maximum: int): Result<Bytes, CodecError> {
    var header := host.canonical(h);
    if !(0 < |header| <= HEADER_LIMIT) then Err(ManifestInvalid)
    else if |Frame(header, bundle)| > maximum then Err(TooLarge)
    else Ok(Frame(header, bundle))
  }

  // ---- decoding

  /** The two parts of a frame, located by its length field. */
  datatype Parts = Parts(header: Bytes, bundle: Bytes)

  function Split(value: Bytes): Option<Parts> {
    if !At(value, 0, Magic()) || |value| < MAGIC_LENGTH + 4 then None
    else
      var start := MAGIC_LENGTH + 4;
      var length := Unpack(value[MAGIC_LENGTH..start]);
      if !(0 < length <= HEADER_LIMIT) || start + length >= |value| then None
      else Some(Parts(value[start..start + length], value[start + length..]))
  }

  /** The manifest of the header is the caller's, or the one the caller's checkout was produced from. */
  predicate ManifestAgrees(h: Header, expected: Manifest, produced: Option<nat>, allowResult: bool) {
    h.manifest == expected ||
    (allowResult && produced.Some? && expected.workspaceSha == h.producedSha &&
     h.manifest.before.Keys == expected.before.Keys &&
     h.manifest == expected.(workspaceSha := h.manifest.workspaceSha, before := h.manifest.before))
  }

  predicate BundleAgrees(host: Host, h: Header, bundle: Bytes) {
    h.bundleSize == |bundle| > 0 && host.hash(bundle) == h.bundleSha
  }

  function Decode(host: Host, value: Bytes, digest: Digest, expected: Manifest, produced: Option<nat>, allowResult: bool)
    : Result<(Header, Bytes), CodecError>
  {
    if host.hash(value) != digest then Err(IntegrityInvalid)
    else
      var parts := Split(value);
      if parts.None? then Err(IntegrityInvalid)
      else
        var h := host.parse(parts.value.header);
        if h.None? || host.canonical(h.value) != parts.value.header || !host.wellFormed(h.value) || h.value.generation < 1 then
          Err(ManifestInvalid)
        else if !BundleAgrees(host, h.value, parts.value.bundle) then Err(IntegrityInvalid)
        else if produced.Some? && h.value.producedSha != produced.value then Err(ResultInvalid)
        else if !ManifestAgrees(h.value, expected, produced, allowResult) then Err(ManifestInvalid)
        else Ok((h.value, parts.value.bundle))
  }

  lemma SplitFrame(header: Bytes, bundle: Bytes)
    requires 0 < |header| <= HEADER_LIMIT && bundle != []
    ensures Split(Frame(header, bundle)) == Some(Parts(header, bundle))
  {
    var value, start := Frame(header, bundle), MAGIC_LENGTH + 4;
    assert value[..MAGIC_LENGTH] == Magic();
    assert value[MAGIC_LENGTH..start] == BigEndian(|header|);
    UnpackPacks(|header|);
    assert value[start..start + |header|] == header;
    assert value[start + |header|..] == bundle;
  }

  lemma FrameSplit(value: Bytes)
    requires Split(value).Some?
    ensures var parts := Split(value).value;
      0 < |parts.header| <= HEADER_LIMIT && parts.bundle != [] && value == Frame(parts.header, parts.bundle)
  {
    var start := MAGIC_LENGTH + 4;
    var length := Unpack(value[MAGIC_LENGTH..start]);
    PackUnpacks(value[MAGIC_LENGTH..start]);
    assert value == value[..MAGIC_LENGTH] + value[MAGIC_LENGTH..start] + value[start..start + length] + value[start + length..];
  }

  /** The bundle is the one the header announces: its length, at least one byte, and its digest. */
  ghost predicate Announces(host: Host, h: Header, bundle: Bytes) {
    bundle != [] && |bundle| == h.bundleSize && host.hash(bundle) == h.bundleSha
  }

  /** The artifact is of the task the caller works on: the same in everything that identifies it, and made in the
      workspace the caller has, file by file.  A caller who already has the result may instead have the workspace
      it produced, with the same files, whatever they were before. */
  ghost predicate OfTask(h: Header, expected: Manifest, produced: Option<nat>, allowResult: bool) {
    h.manifest.identity == expected.identity &&
    (forall f :: f in h.manifest.before <==> f in expected.before) &&
    if h.manifest.workspaceSha == expected.workspaceSha &&
       (forall f :: f in expected.before ==> f in h.manifest.before && h.manifest.before[f] == expected.before[f])
    then true
    else allowResult && produced.Some? && expected.workspaceSha == h.producedSha
  }

  /** What is agreed between header, bundle and expectations. */
  ghost predicate Agreed(host: Host, h: Header, bundle: Bytes, expected: Manifest, produced: Option<nat>, allowResult: bool) {
    host.wellFormed(h) && h.generation >= 1 && Announces(host, h, bundle) &&
    (produced.Some? ==> h.producedSha == produced.value) && OfTask(h, expected, produced, allowResult)
  }

  lemma OfTaskExactly(h: Header, expected: Manifest, produced: Option<nat>, allowResult: bool)
    ensures ManifestAgrees(h, expected, produced, allowResult) <==> OfTask(h, expected, produced, allowResult)
  {
    var m := h.manifest;
    if OfTask(h, expected, produced, allowResult) {
      assert m.before.Keys == expected.before.Keys;
      if m.workspaceSha == expected.workspaceSha && (forall f :: f in expected.before ==> f in m.before && m.before[f] == expected.before[f]) {
        assert m.before == expected.before;
      }
    }
    if ManifestAgrees(h, expected, produced, allowResult) {
      forall f ensures f in m.before <==> f in expected.before { assert f in m.before.Keys <==> f in expected.before.Keys; }
    }
  }

  /** Framing is a bijection on accepted values: a byte string decodes to (h, b) exactly when it is the
      encoding of (h, b) and these meet the caller's expectations. */
  lemma DecodesExactlyEncodings(host: Host, value: Bytes, digest: Digest, expected: Manifest, produced: Option<nat>,
                                allowResult: bool, h: Header, bundle: Bytes)
    requires RoundTrips(host)
    ensures Decode(host, value, digest, expected, produced, allowResult) == Ok((h, bundle)) <==>
      Encode(host, h, bundle, |value|) == Ok(value) && host.hash(value) == digest &&
      Agreed(host, h, bundle, expected, produced, allowResult)
  {
    hide Frame, Split, ManifestAgrees, OfTask;
    OfTaskExactly(h, expected, produced, allowResult);
    if Decode(host, value, digest, expected, produced, allowResult) == Ok((h, bundle)) { FrameSplit(value); }
    if Encode(host, h, bundle, |value|) == Ok(value) && bundle != [] { SplitFrame(host.canonical(h), bundle); }
  }

  /** What was encoded is what is decoded, and nothing else encodes to the same bytes. */
  lemma RoundTrip(host: Host, h: Header, bundle: Bytes, maximum: int, expected: Manifest, produced: Option<nat>,
                  allowResult: bool)
    requires RoundTrips(host) && Encode(host, h, bundle, maximum).Ok?
    requires Agreed(host, h, bundle, expected, produced, allowResult)
    ensures var value := Encode(host, h, bundle, maximum).value;
      Decode(host, value, host.hash(value), expected, produced, allowResult) == Ok((h, bundle)) &&
      forall h', bundle' :: Encode(host, h', bundle', maximum) == Ok(value) && bundle' != [] ==> h' == h && bundle' == bundle
  {
    hide Frame, Split, ManifestAgrees, OfTask;
    var value := Encode(host, h, bundle, maximum).value;
    DecodesExactlyEncodings(host, value, host.hash(value), expected, produced, allowResult, h, bundle);
    forall h', bundle' | Encode(host, h', bundle', maximum) == Ok(value) && bundle' != [] ensures h' == h && bundle' == bundle {
      SplitFrame(host.canonical(h'), bundle');
      SplitFrame(host.canonical(h), bundle);
      assert host.parse(host.canonical(h')) == Some(h') && host.parse(host.canonical(h)) == Some(h);
    }
  }

  // ---- downloading

  /** The body of a stored object.  `chunk` says how much the server answers a request for `n` bytes
      at a position with: an honest server between one byte and what was asked for, until the end. */
  class Body {
    const stored: Bytes
    const chunk: (nat, nat) -> nat
    var position: nat

    constructor (stored: Bytes, chunk: (nat, nat) -> nat)
      ensures this.stored == stored && this.chunk == chunk && position == 0
    {
      this.stored, this.chunk, position := stored, chunk, 0;
    }

    ghost predicate Valid()
      reads this
    {
      position <= |stored|
    }

    method Read(n: nat) returns (reply: Bytes)
      requires Valid()
      modifies this
      ensures Valid() && position == old(position) + |reply| && reply == stored[old(position)..position]
      ensures |reply| == Least(chunk(old(position), n), |stored| - old(position))
    {
      var k := chunk(position, n);
      var end := if k <= |stored| - position then position + k else |stored|;
      reply := stored[position..end];
      position := end;
    }
  }

  ghost predicate Honest(chunk: (nat, nat) -> nat) {
    forall p, n :: n >= 1 ==> 1 <= chunk(p, n) <= n
  }

  const CHUNK := 1048576

  function Least(a: nat, b: nat): nat {
    if a <= b then a else b
  }

  /** `_download`.  Whatever the server does, an accepted value is the stored object up to its announced
      length, within the maximum, and no more than `maximum + 1` bytes are ever collected; an honest
      server's object is accepted exactly when its announced length is true and within the maximum. */
  method Download(body: Body, length: Option<int>, maximum: nat) returns (r: Result<Bytes, CodecError>, collected: nat)
    requires body.Valid() && body.position == 0
    modifies body
    ensures collected <= maximum + 1
    ensures r.Ok? ==> length == Some(|r.value|) && 0 < |r.value| <= maximum && |r.value| <= |body.stored| &&
                      r.value == body.stored[..|r.value|]
    ensures Honest(body.chunk) ==>
      (r.Ok? <==> length == Some(|body.stored|) && 0 < |body.stored| <= maximum) && (r.Ok? ==> r.value == body.stored)
  {
    collected := 0;
    if length.None? || !(0 < length.value <= maximum) { return Err(ReadInvalid), 0; }
    var value: Bytes := [];
    var remaining := maximum + 1;
    while remaining > 0
      invariant body.Valid() && body.position == |value| == collected && remaining == maximum + 1 - |value|
      invariant value == body.stored[..|value|]
      invariant 0 <= remaining
      decreases remaining
    {
      var requested := Least(CHUNK, remaining);
      var reply := body.Read(requested);
      if |reply| > requested { return Err(ReadInvalid), collected; }
      if reply == [] { break; }
      assert body.stored[..|value|] + reply == body.stored[..|value| + |reply|];
      value := value + reply;
      collected := |value|;
      remaining := remaining - |reply|;
    }
    assert Honest(body.chunk) ==> |value| == |body.stored| || remaining == 0;
    var extra := body.Read(1);
    if |value| != length.value || |value| > maximum || extra != [] { return Err(ReadInvalid), collected; }
    assert body.stored[..|body.stored|] == body.stored;
    r := Ok(value);
  }
}
