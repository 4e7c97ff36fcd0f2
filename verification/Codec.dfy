/** The two envelope formats: a magic, the metadata's length in four bytes, the metadata, and the
    sealed bytes. */
module Codec {
  import opened Options

  type byte = b: nat | b < 256

  const U32: nat := 0x1_0000_0000
  const META_LIMIT: nat := 0x10_0000

  /** "VG-VAULT-01" and "VG-GENOME-01", padded with zeros to sixteen bytes. */
  const VAULT_MAGIC: seq<byte> := [0x56, 0x47, 0x2D, 0x56, 0x41, 0x55, 0x4C, 0x54, 0x2D, 0x30, 0x31, 0, 0, 0, 0, 0]
  const GENOME_MAGIC: seq<byte> := [0x56, 0x47, 0x2D, 0x47, 0x45, 0x4E, 0x4F, 0x4D, 0x45, 0x2D, 0x30, 0x31, 0, 0, 0, 0]

  const VAULT_FORMAT := "vault-genome-v1"
  const GENOME_FORMAT := "vault-genome-v2"

  // ----- Big-endian 32-bit numbers -----

  function PutU32(n: nat): (b: seq<byte>)
    requires n < U32
    ensures |b| == 4
  {
    [n / 0x100_0000, n / 0x1_0000 % 0x100, n / 0x100 % 0x100, n % 0x100]
  }

  function GetU32(b: seq<byte>): (n: nat)
    requires |b| == 4
    ensures n < U32
  {
    ((b[0] as int * 0x100 + b[1] as int) * 0x100 + b[2] as int) * 0x100 + b[3] as int
  }

  /** Dividing by 256 twice, and three times. */
  lemma ByteByByte(n: nat)
    ensures n / 0x1_0000 == n / 0x100 / 0x100
    ensures n / 0x100_0000 == n / 0x100 / 0x100 / 0x100
  {
  }

  lemma U32RoundTrip(n: nat)
    requires n < U32
    ensures GetU32(PutU32(n)) == n
  {
    ByteByByte(n);
    var n1 := n / 0x100;
    var n2 := n1 / 0x100;
    assert n == n1 * 0x100 + n % 0x100;
    assert n1 == n2 * 0x100 + n1 % 0x100;
    assert n2 == n2 / 0x100 * 0x100 + n2 % 0x100;
  }

  lemma GetIsPut(b: seq<byte>)
    requires |b| == 4
    ensures PutU32(GetU32(b)) == b
  {
    var n2 := b[0] as int * 0x100 + b[1] as int;
    var n1 := n2 * 0x100 + b[2] as int;
    var n := n1 * 0x100 + b[3] as int;
    ByteByByte(n);
    assert n / 0x100 == n1 && n1 / 0x100 == n2 && n2 / 0x100 == b[0] as int;
  }

  /** The bytes are in the order of their weight: they compare as the numbers do. */
  lemma MostSignificantFirst(a: seq<byte>, b: seq<byte>)
    requires |a| == 4 && |b| == 4
    ensures GetU32(a) < GetU32(b) <==> exists i :: FirstLess(a, b, i)
  {
    if GetU32(a) < GetU32(b) {
      var i := if a[0] != b[0] then 0 else if a[1] != b[1] then 1 else if a[2] != b[2] then 2 else 3;
      assert FirstLess(a, b, i);
    }
  }

  /** a and b differ first at i, and a's byte there is the lesser. */
  predicate FirstLess(a: seq<byte>, b: seq<byte>, i: nat) {
    i < |a| && i < |b| && (forall j | 0 <= j < i :: a[j] == b[j]) && a[i] < b[i]
  }

  // ----- The layout -----

  /** The blob of a magic, metadata and sealed bytes. */
  function Laid(magic: seq<byte>, meta: seq<byte>, body: seq<byte>): seq<byte>
    requires |meta| < U32
  {
    magic + PutU32(|meta|) + meta + body
  }

  datatype Error = TooShort | MagicMismatch | Truncated | BadJson | BadFormat

  datatype Result<T> = Ok(value: T) | Err(error: Error)

  /** What the decoders make of the layout: the metadata and the rest, where the length left is
      compared as a 32-bit number. */
  function Split(magic: seq<byte>, blob: seq<byte>): Result<(seq<byte>, seq<byte>)>
    requires |magic| == 16
  {
    if |blob| < 20 then Err(TooShort)
    else if blob[..16] != magic then Err(MagicMismatch)
    else
      var metaLen := GetU32(blob[16..20]);
      if (|blob| - 20) % U32 < metaLen then Err(Truncated)
      else
        Ok((blob[20..20 + metaLen], blob[20 + metaLen..]))
  }

  /** What splits was laid out so, and from nothing else. */
  lemma SplitIsLaid(magic: seq<byte>, blob: seq<byte>)
    requires |magic| == 16 && Split(magic, blob).Ok?
    ensures var (meta, body) := Split(magic, blob).value;
            |meta| < U32 && blob == Laid(magic, meta, body)
  {
    var metaLen := GetU32(blob[16..20]);
    GetIsPut(blob[16..20]);
    assert blob == blob[..16] + blob[16..20] + blob[20..20 + metaLen] + blob[20 + metaLen..];
  }

  /** A layout splits back exactly when the length left, as a 32-bit number, is not below the
      metadata's. */
  lemma LaidSplits(magic: seq<byte>, meta: seq<byte>, body: seq<byte>)
    requires |magic| == 16 && |meta| < U32
    ensures var left := (|meta| + |body|) % U32;
            Split(magic, Laid(magic, meta, body)) == if left >= |meta| then Ok((meta, body)) else Err(Truncated)
  {
    var blob := Laid(magic, meta, body);
    assert blob[..16] == magic && blob[16..20] == PutU32(|meta|);
    U32RoundTrip(|meta|);
    assert blob[20..] == meta + body;
    assert blob[20..20 + |meta|] == meta && blob[20 + |meta|..] == body;
  }

  // ----- Vault envelopes -----

  /** An envelope's metadata: its format, when it was sealed, and everything else it holds. */
  datatype VaultEnvelope = VaultEnvelope(format: string, sealedAt: int, rest: nat)

  datatype GenomeEnvelope = GenomeEnvelope(format: string, generation: nat, rest: nat)

  /** JSON for one kind of metadata. */
  datatype Json<!T> = Json(marshal: T -> Option<seq<byte>>, unmarshal: seq<byte> -> Option<T>)

  /** What marshals reads back. */
  ghost predicate Inverse<T(!new)>(json: Json<T>) {
    forall t: T :: json.marshal(t).Some? ==> json.unmarshal(json.marshal(t).value) == Some(t)
  }

  /** The format and the time of sealing, when the caller left them out. */
  function Defaulted(env: VaultEnvelope, now: int): VaultEnvelope {
    VaultEnvelope(if env.format == "" then VAULT_FORMAT else env.format,
                  if env.sealedAt == 0 then now else env.sealedAt, env.rest)
  }

  function EncodedVault(env: VaultEnvelope, body: seq<byte>, now: int, json: Json<VaultEnvelope>): Option<seq<byte>> {
    var meta := json.marshal(Defaulted(env, now));
    if meta.None? || |meta.value| > META_LIMIT then None else Some(Laid(VAULT_MAGIC, meta.value, body))
  }

  function DecodedVault(blob: seq<byte>, json: Json<VaultEnvelope>): Result<(VaultEnvelope, seq<byte>)> {
    match Split(VAULT_MAGIC, blob)
    case Err(e) => Err(e)
    case Ok(parts) =>
      var env := json.unmarshal(parts.0);
      if env.None? then Err(BadJson)
      else if env.value.format != VAULT_FORMAT then Err(BadFormat) else Ok((env.value, parts.1))
  }

  function DecodedGenome(blob: seq<byte>, json: Json<GenomeEnvelope>): Result<(GenomeEnvelope, seq<byte>)> {
    match Split(GENOME_MAGIC, blob)
    case Err(e) => Err(e)
    case Ok(parts) =>
      var env := json.unmarshal(parts.0);
      if env.None? then Err(BadJson)
      else if env.value.format != GENOME_FORMAT then Err(BadFormat) else Ok((env.value, parts.1))
  }

  /** EncodeVault. */
  method EncodeVault(env: VaultEnvelope, body: seq<byte>, now: int, json: Json<VaultEnvelope>)
    returns (blob: Option<seq<byte>>)
    ensures blob == EncodedVault(env, body, now, json)
    ensures var meta := json.marshal(Defaulted(env, now));
            blob.Some? <==> meta.Some? && |meta.value| <= 1024 * 1024
  {
    var format, sealedAt := env.format, env.sealedAt;
    if format == "" { format := VAULT_FORMAT; }
    if sealedAt == 0 { sealedAt := now; }
    var meta := json.marshal(VaultEnvelope(format, sealedAt, env.rest));
    if meta.None? || |meta.value| > META_LIMIT { return None; }
    var buf := VAULT_MAGIC;
    buf := buf + PutU32(|meta.value|);
    buf := buf + meta.value;
    buf := buf + body;
    blob := Some(buf);
  }

  /** DecodeVault: no slice it takes is out of range, whatever the blob. */
  method DecodeVault(blob: seq<byte>, json: Json<VaultEnvelope>) returns (r: Result<(VaultEnvelope, seq<byte>)>)
    ensures r == DecodedVault(blob, json)
  {
    if |blob| < |VAULT_MAGIC| + 4 { return Err(TooShort); }
    if blob[..|VAULT_MAGIC|] != VAULT_MAGIC { return Err(MagicMismatch); }
    var off := |VAULT_MAGIC|;
    var metaLen := GetU32(blob[off..off + 4]);
    off := off + 4;
    if (|blob| - off) % U32 < metaLen { return Err(Truncated); }
    var env := json.unmarshal(blob[off..off + metaLen]);
    if env.None? { return Err(BadJson); }
    if env.value.format != VAULT_FORMAT { return Err(BadFormat); }
    r := Ok((env.value, blob[off + metaLen..]));
  }

  /** decodeGenome: the same layout under its own magic and format. */
  method DecodeGenome(blob: seq<byte>, json: Json<GenomeEnvelope>) returns (r: Result<(GenomeEnvelope, seq<byte>)>)
    ensures r == DecodedGenome(blob, json)
  {
    if |blob| < |GENOME_MAGIC| + 4 { return Err(TooShort); }
    if blob[..|GENOME_MAGIC|] != GENOME_MAGIC { return Err(MagicMismatch); }
    var off := |GENOME_MAGIC|;
    var metaLen := GetU32(blob[off..off + 4]);
    off := off + 4;
    if (|blob| - off) % U32 < metaLen { return Err(Truncated); }
    var env := json.unmarshal(blob[off..off + metaLen]);
    if env.None? { return Err(BadJson); }
    if env.value.format != GENOME_FORMAT { return Err(BadFormat); }
    r := Ok((env.value, blob[off + metaLen..]));
  }

  // ----- Round trips -----

  /** An envelope that was encoded decodes to itself, its defaults filled in, exactly when its format
      is the accepted one or left out and the 32-bit length left is not below the metadata's. */
  lemma VaultRoundTrip(env: VaultEnvelope, body: seq<byte>, now: int, json: Json<VaultEnvelope>)
    requires Inverse(json) && EncodedVault(env, body, now, json).Some?
    ensures var meta := json.marshal(Defaulted(env, now)).value;
            DecodedVault(EncodedVault(env, body, now, json).value, json) == Ok((Defaulted(env, now), body))
            <==> (env.format == "" || env.format == VAULT_FORMAT) && (|meta| + |body|) % U32 >= |meta|
  {
    LaidSplits(VAULT_MAGIC, json.marshal(Defaulted(env, now)).value, body);
  }

  /** ... so whenever the metadata and the sealed bytes together are below four gibibytes. */
  lemma SmallVaultsRoundTrip(env: VaultEnvelope, body: seq<byte>, now: int, json: Json<VaultEnvelope>)
    requires Inverse(json) && EncodedVault(env, body, now, json).Some?
             && (env.format == "" || env.format == VAULT_FORMAT)
    requires |json.marshal(Defaulted(env, now)).value| + |body| < U32
    ensures DecodedVault(EncodedVault(env, body, now, json).value, json)
            == Ok((VaultEnvelope("vault-genome-v1", if env.sealedAt == 0 then now else env.sealedAt, env.rest), body))
  {
    LaidSplits(VAULT_MAGIC, json.marshal(Defaulted(env, now)).value, body);
  }

  /** Past that the decoder refuses what the encoder made: so it does, say, whenever metadata and
      sealed bytes together come to exactly four gibibytes. */
  lemma FourGibibytesDoNotDecode(env: VaultEnvelope, body: seq<byte>, now: int, json: Json<VaultEnvelope>)
    requires Inverse(json) && EncodedVault(env, body, now, json).Some?
    ensures var meta := json.marshal(Defaulted(env, now)).value;
            var decoded := DecodedVault(EncodedVault(env, body, now, json).value, json);
            && (decoded == Err(Truncated) <==> (|meta| + |body|) % U32 < |meta|)
            && (meta != [] && |body| == U32 - |meta| ==> decoded == Err(Truncated))
  {
    LaidSplits(VAULT_MAGIC, json.marshal(Defaulted(env, now)).value, body);
  }

  /** A format other than the accepted one is encoded, and never decodes. */
  lemma OtherFormatsDoNotDecode(env: VaultEnvelope, body: seq<byte>, now: int, json: Json<VaultEnvelope>)
    requires Inverse(json) && EncodedVault(env, body, now, json).Some? && env.format != "" && env.format != VAULT_FORMAT
    ensures DecodedVault(EncodedVault(env, body, now, json).value, json).Err?
  {
    LaidSplits(VAULT_MAGIC, json.marshal(Defaulted(env, now)).value, body);
  }

  /** The genome decoder accepts exactly the layouts of metadata that reads as an envelope of the accepted
      format, and gives that envelope and everything after the metadata. */
  lemma GenomeDecodesExactly(blob: seq<byte>, json: Json<GenomeEnvelope>, env: GenomeEnvelope, body: seq<byte>)
    ensures DecodedGenome(blob, json) == Ok((env, body)) <==>
            exists meta :: LaidOut(GENOME_MAGIC, blob, meta, body)
              && json.unmarshal(meta) == Some(env) && env.format == "vault-genome-v2"
  {
    SplitsExactly(GENOME_MAGIC, blob, body);
  }

  /** ... and so does the vault's. */
  lemma VaultDecodesExactly(blob: seq<byte>, json: Json<VaultEnvelope>, env: VaultEnvelope, body: seq<byte>)
    ensures DecodedVault(blob, json) == Ok((env, body)) <==>
            exists meta :: LaidOut(VAULT_MAGIC, blob, meta, body)
              && json.unmarshal(meta) == Some(env) && env.format == "vault-genome-v1"
  {
    SplitsExactly(VAULT_MAGIC, blob, body);
  }

  /** The blob is that layout, and the length left, as a 32-bit number, reaches over the metadata. */
  predicate LaidOut(magic: seq<byte>, blob: seq<byte>, meta: seq<byte>, body: seq<byte>) {
    |meta| < U32 && blob == Laid(magic, meta, body) && (|meta| + |body|) % U32 >= |meta|
  }

  lemma SplitsExactly(magic: seq<byte>, blob: seq<byte>, body: seq<byte>)
    requires |magic| == 16
    ensures forall meta :: Split(magic, blob) == Ok((meta, body)) <==> LaidOut(magic, blob, meta, body)
  {
    forall meta ensures Split(magic, blob) == Ok((meta, body)) <==> LaidOut(magic, blob, meta, body) {
      if |meta| < U32 { LaidSplits(magic, meta, body); }
      if Split(magic, blob) == Ok((meta, body)) { SplitIsLaid(magic, blob); }
    }
  }

  /** What decodes is one layout only: two blobs that split the same are the same blob. */
  lemma SplitIsInjective(magic: seq<byte>, a: seq<byte>, b: seq<byte>)
    requires |magic| == 16 && Split(magic, a).Ok? && Split(magic, a) == Split(magic, b)
    ensures a == b
  {
    SplitIsLaid(magic, a);
    SplitIsLaid(magic, b);
  }

  /** No blob is accepted by both decoders. */
  lemma NeverBoth(blob: seq<byte>, vault: Json<VaultEnvelope>, genome: Json<GenomeEnvelope>)
    ensures DecodedVault(blob, vault).Err? || DecodedGenome(blob, genome).Err?
  {
    assert VAULT_MAGIC[3] != GENOME_MAGIC[3];
  }
}
