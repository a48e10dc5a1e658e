/**
 The tag blob of the object store: a run of pairs, each with two little-endian 32-bit lengths.
 Texts are their UTF-8 bytes.
 */
module TagCodec {
  import opened Wrappers
  import opened OsmObjects

  datatype Tag = Tag(key: seq<Byte>, value: seq<Byte>)

  const LIMIT: nat := 0x1_0000_0000

  predicate Packable(tags: seq<Tag>) {
    forall i :: 0 <= i < |tags| ==> |tags[i].key| < LIMIT && |tags[i].value| < LIMIT
  }

  function Pack(n: nat): (r: seq<Byte>)
    requires n < LIMIT
    ensures |r| == 4
  {
    [(n % 256) as Byte, (n / 256 % 256) as Byte, (n / 65536 % 256) as Byte, (n / 16777216) as Byte]
  }

  function Unpack(b: seq<Byte>): (n: nat)
    requires |b| == 4
    ensures n < LIMIT
  {
    b[0] as nat + 256 * (b[1] as nat) + 65536 * (b[2] as nat) + 16777216 * (b[3] as nat)
  }

  lemma PackUnpack(n: nat)
    requires n < LIMIT
    ensures Unpack(Pack(n)) == n
  {
    assert n / 65536 == n / 256 / 256 && n / 16777216 == n / 65536 / 256;
  }

  lemma UnpackPack(b: seq<Byte>)
    requires |b| == 4
    ensures Pack(Unpack(b)) == b
  {
    var n := Unpack(b);
    assert n == b[0] as nat + 256 * (b[1] as nat + 256 * (b[2] as nat + 256 * (b[3] as nat)));
    assert n / 256 == b[1] as nat + 256 * (b[2] as nat + 256 * (b[3] as nat));
    assert n / 65536 == n / 256 / 256 == b[2] as nat + 256 * (b[3] as nat);
    assert n / 16777216 == n / 65536 / 256 == b[3] as nat;
  }

  function EncodeTag(t: Tag): seq<Byte>
    requires |t.key| < LIMIT && |t.value| < LIMIT
  {
    Pack(|t.key|) + Pack(|t.value|) + t.key + t.value
  }

  /** The `i`-th byte of a number, the least significant first. */
  function ByteOf(n: nat, i: nat): nat {
    if i == 0 then n % 256 else ByteOf(n / 256, i - 1)
  }

  lemma PackBytes(n: nat)
    requires n < LIMIT
    ensures forall i :: 0 <= i < 4 ==> Pack(n)[i] as nat == ByteOf(n, i)
  {
    assert n / 65536 == n / 256 / 256 && n / 16777216 == n / 65536 / 256;
    assert ByteOf(n, 1) == n / 256 % 256;
    assert ByteOf(n, 2) == ByteOf(n / 256, 1) == n / 65536 % 256;
    assert ByteOf(n, 3) == ByteOf(n / 256, 2) == ByteOf(n / 65536, 1) == n / 16777216;
  }

  /** The bytes of a pair: both lengths in four bytes, least significant first, the key and the value. */
  lemma TagLayout(t: Tag)
    requires |t.key| < LIMIT && |t.value| < LIMIT
    ensures var v := EncodeTag(t);
            && |v| == 8 + |t.key| + |t.value|
            && (forall i :: 0 <= i < 4 ==>
                  v[i] as nat == ByteOf(|t.key|, i) && v[4 + i] as nat == ByteOf(|t.value|, i))
            && v[8..8 + |t.key|] == t.key && v[8 + |t.key|..] == t.value
  {
    PackBytes(|t.key|);
    PackBytes(|t.value|);
  }

  ghost function Encoded(tags: seq<Tag>): seq<Byte>
    requires Packable(tags)
  {
    if tags == [] then [] else EncodeTag(tags[0]) + Encoded(tags[1..])
  }

  /** `_encode_tags`; `None` is the packing error of a text of 4 GiB or more. */
  method EncodeTags(tags: seq<Tag>) returns (r: Option<seq<Byte>>)
    ensures r.Some? <==> Packable(tags)
    ensures r.Some? ==> r.value == Encoded(tags)
  {
    var result: seq<Byte> := [];
    for i := 0 to |tags|
      invariant Packable(tags[..i]) && result == Encoded(tags[..i])
    {
      if |tags[i].key| >= LIMIT || |tags[i].value| >= LIMIT {
        return None;
      }
      assert tags[..i + 1] == tags[..i] + [tags[i]];
      EncodedSnoc(tags[..i], tags[i]);
      result := result + EncodeTag(tags[i]);
    }
    assert tags[..|tags|] == tags;
    r := Some(result);
  }

  lemma {:induction false} EncodedSnoc(tags: seq<Tag>, t: Tag)
    requires Packable(tags) && |t.key| < LIMIT && |t.value| < LIMIT
    ensures Packable(tags + [t]) && Encoded(tags + [t]) == Encoded(tags) + EncodeTag(t)
    decreases |tags|
  {
    if tags != [] {
      EncodedSnoc(tags[1..], t);
      assert (tags + [t])[1..] == tags[1..] + [t];
    } else {
      assert [t][1..] == [];
    }
  }

  datatype Decoded = Pairs(tags: seq<Tag>) | Malformed | Truncated

  /** The lengths a blob announces for its first pair. */
  function KeySize(v: seq<Byte>): nat
    requires |v| >= 8
  {
    Unpack(v[..4])
  }

  function ValueSize(v: seq<Byte>): nat
    requires |v| >= 8
  {
    Unpack(v[4..8])
  }

  predicate Splits(v: seq<Byte>) {
    |v| >= 8 && 8 + KeySize(v) + ValueSize(v) <= |v|
  }

  function HeadTag(v: seq<Byte>): Tag
    requires Splits(v)
  {
    var k, w := KeySize(v), ValueSize(v);
    Tag(v[8..8 + k], v[8 + k..8 + k + w])
  }

  function Tail(v: seq<Byte>): seq<Byte>
    requires Splits(v)
  {
    v[8 + KeySize(v) + ValueSize(v)..]
  }

  lemma HeadOfEncoding(t: Tag, rest: seq<Byte>)
    requires |t.key| < LIMIT && |t.value| < LIMIT
    ensures var v := EncodeTag(t) + rest; Splits(v) && HeadTag(v) == t && Tail(v) == rest
  {
    var v := EncodeTag(t) + rest;
    var k, w := |t.key|, |t.value|;
    PackUnpack(k);
    PackUnpack(w);
    assert v[..4] == Pack(k) && v[4..8] == Pack(w);
    assert v[8..8 + k] == t.key && v[8 + k..8 + k + w] == t.value && v[8 + k + w..] == rest;
  }

  lemma EncodingOfHead(v: seq<Byte>)
    requires Splits(v)
    ensures var t := HeadTag(v); |t.key| < LIMIT && |t.value| < LIMIT && EncodeTag(t) + Tail(v) == v
  {
    var k, w := KeySize(v), ValueSize(v);
    UnpackPack(v[..4]);
    UnpackPack(v[4..8]);
    assert v == v[..4] + v[4..8] + v[8..8 + k] + v[8 + k..8 + k + w] + v[8 + k + w..];
  }

  /** What the decoder makes of a blob: the pairs, in order, or one of its two errors. */
  function Parse(v: seq<Byte>): Decoded
    decreases |v|
  {
    if v == [] then Pairs([])
    else if |v| < 8 then Malformed
    else if !Splits(v) then Truncated
    else Prepended(HeadTag(v), Parse(Tail(v)))
  }

  function Prepended(t: Tag, rest: Decoded): Decoded {
    if rest.Pairs? then Pairs([t] + rest.tags) else rest
  }

  /** Every list of pairs decodes to itself. */
  lemma {:induction false} ParseEncoded(tags: seq<Tag>)
    requires Packable(tags)
    ensures Parse(Encoded(tags)) == Pairs(tags)
    decreases |tags|
  {
    if tags != [] {
      HeadOfEncoding(tags[0], Encoded(tags[1..]));
      ParseEncoded(tags[1..]);
      assert tags == [tags[0]] + tags[1..];
    }
  }

  /** An accepted blob is the encoding of what it decodes to. */
  lemma {:induction false} EncodedParse(v: seq<Byte>)
    requires Parse(v).Pairs?
    ensures Packable(Parse(v).tags) && Encoded(Parse(v).tags) == v
    decreases |v|
  {
    if v != [] {
      EncodedParse(Tail(v));
      EncodingOfHead(v);
      var tags := Parse(v).tags;
      assert tags[0] == HeadTag(v) && tags[1..] == Parse(Tail(v)).tags;
    }
  }

  /** The decoder accepts exactly the encodings, and splits each in exactly one way. */
  lemma AcceptedIffEncoding(v: seq<Byte>, tags: seq<Tag>)
    ensures Packable(tags) && Encoded(tags) == v <==> Parse(v) == Pairs(tags)
  {
    if Packable(tags) && Encoded(tags) == v {
      ParseEncoded(tags);
    }
    if Parse(v) == Pairs(tags) {
      EncodedParse(v);
    }
  }

  /** The dictionary of a list of pairs; the last value of a repeated key wins. */
  ghost function Dictionary(tags: seq<Tag>): map<seq<Byte>, seq<Byte>> {
    if tags == [] then map[] else Dictionary(tags[..|tags| - 1])[tags[|tags| - 1].key := tags[|tags| - 1].value]
  }

  datatype DecodeResult = Tags(dictionary: map<seq<Byte>, seq<Byte>>) | MalformedTags | TruncatedTags

  function Appended(done: seq<Tag>, rest: Decoded): Decoded {
    if rest.Pairs? then Pairs(done + rest.tags) else rest
  }

  lemma ReadOne(v: seq<Byte>, done: seq<Tag>, rest: seq<Byte>)
    requires Parse(v) == Appended(done, Parse(rest)) && Splits(rest)
    ensures Parse(v) == Appended(done + [HeadTag(rest)], Parse(Tail(rest)))
  {
    var t, more := HeadTag(rest), Parse(Tail(rest));
    if more.Pairs? {
      assert done + ([t] + more.tags) == done + [t] + more.tags;
    }
  }

  /** Reading a pair at an offset is reading the head of the remaining bytes. */
  lemma HeadAt(v: seq<Byte>, offset: nat)
    requires offset + 8 <= |v|
    ensures KeySize(v[offset..]) == Unpack(v[offset..offset + 4])
    ensures ValueSize(v[offset..]) == Unpack(v[offset + 4..offset + 8])
    ensures var k, w := KeySize(v[offset..]), ValueSize(v[offset..]);
            var o := offset + 8;
            o + k + w <= |v| ==>
              && Splits(v[offset..]) && HeadTag(v[offset..]) == Tag(v[o..o + k], v[o + k..o + k + w])
              && Tail(v[offset..]) == v[o + k + w..]
  {
    var rest := v[offset..];
    assert rest[..4] == v[offset..offset + 4] && rest[4..8] == v[offset + 4..offset + 8];
    var k, w, o := KeySize(rest), ValueSize(rest), offset + 8;
    if o + k + w <= |v| {
      assert rest[8..8 + k] == v[o..o + k] && rest[8 + k..8 + k + w] == v[o + k..o + k + w];
      assert rest[8 + k + w..] == v[o + k + w..];
    }
  }

  /** One turn of the decoder: the pair at `offset`, unless it runs past the end. */
  method ReadPair(v: seq<Byte>, offset: nat) returns (fits: bool, t: Tag, next: nat)
    requires offset + 8 <= |v|
    ensures fits <==> Splits(v[offset..])
    ensures fits ==> t == HeadTag(v[offset..]) && offset < next <= |v| && v[next..] == Tail(v[offset..])
  {
    HeadAt(v, offset);
    var k, w := Unpack(v[offset..offset + 4]), Unpack(v[offset + 4..offset + 8]);
    next := offset + 8;
    fits := next + k + w <= |v|;
    if fits {
      var key := v[next..next + k];
      next := next + k;
      t := Tag(key, v[next..next + w]);
      next := next + w;
    } else {
      t := Tag([], []);
    }
  }

  /** `_decode_tags`, with its offset loop. */
  method DecodeTags(v: seq<Byte>) returns (r: DecodeResult)
    ensures Parse(v).Pairs? ==> r == Tags(Dictionary(Parse(v).tags))
    ensures Parse(v).Malformed? ==> r == MalformedTags
    ensures Parse(v).Truncated? ==> r == TruncatedTags
  {
    var result: map<seq<Byte>, seq<Byte>> := map[];
    ghost var done: seq<Tag> := [];
    var offset := 0;
    assert v[0..] == v;
    while offset < |v|
      invariant 0 <= offset <= |v|
      invariant Parse(v) == Appended(done, Parse(v[offset..]))
      invariant result == Dictionary(done)
    {
      if offset + 8 > |v| {
        return MalformedTags;
      }
      var fits, t, next := ReadPair(v, offset);
      if !fits {
        return TruncatedTags;
      }
      ReadOne(v, done, v[offset..]);
      DictionarySnoc(done, t);
      result, done, offset := result[t.key := t.value], done + [t], next;
    }
    assert v[offset..] == [];
    assert done + [] == done;
    r := Tags(result);
  }

  lemma DictionarySnoc(tags: seq<Tag>, t: Tag)
    ensures Dictionary(tags + [t]) == Dictionary(tags)[t.key := t.value]
  {
    assert (tags + [t])[..|tags|] == tags;
  }

  ghost predicate DistinctKeys(tags: seq<Tag>) {
    forall i, j :: 0 <= i < j < |tags| ==> tags[i].key != tags[j].key
  }

  /** The dictionary's keys are the keys of the list. */
  lemma {:induction false} DictionaryKeys(tags: seq<Tag>, k: seq<Byte>)
    ensures k in Dictionary(tags) <==> exists i :: 0 <= i < |tags| && tags[i].key == k
    decreases |tags|
  {
    if tags != [] {
      var n := |tags| - 1;
      DictionaryKeys(tags[..n], k);
      if exists i :: 0 <= i < n && tags[i].key == k {
        var i :| 0 <= i < n && tags[i].key == k;
        assert tags[..n][i].key == k;
      }
    }
  }

  /** With distinct keys every pair is found under its key, and nothing is lost or merged. */
  lemma {:induction false} DictionaryExact(tags: seq<Tag>)
    requires DistinctKeys(tags)
    ensures forall i :: 0 <= i < |tags| ==>
      tags[i].key in Dictionary(tags) && Dictionary(tags)[tags[i].key] == tags[i].value
    ensures |Dictionary(tags)| == |tags|
    decreases |tags|
  {
    if tags != [] {
      var n := |tags| - 1;
      DictionaryExact(tags[..n]);
      DictionaryKeys(tags[..n], tags[n].key);
      NewKey(Dictionary(tags[..n]), tags[n]);
      forall i | 0 <= i < n
        ensures tags[i].key in Dictionary(tags) && Dictionary(tags)[tags[i].key] == tags[i].value
      {
        assert tags[..n][i] == tags[i];
      }
    }
  }

  lemma NewKey(d: map<seq<Byte>, seq<Byte>>, t: Tag)
    requires t.key !in d
    ensures |d[t.key := t.value]| == |d| + 1
  {
    assert d[t.key := t.value].Keys == d.Keys + {t.key};
  }

  /** The round trip of the store: encode, then decode, gives the tags back. */
  method RoundTrip(tags: seq<Tag>) returns (r: DecodeResult)
    requires Packable(tags) && DistinctKeys(tags)
    ensures r.Tags? && |r.dictionary| == |tags|
    ensures forall i :: 0 <= i < |tags| ==> tags[i].key in r.dictionary && r.dictionary[tags[i].key] == tags[i].value
  {
    var blob := EncodeTags(tags);
    ParseEncoded(tags);
    r := DecodeTags(blob.value);
    DictionaryExact(tags);
  }
}
