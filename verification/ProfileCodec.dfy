/** The stored profile and its binary form (profile_state.py, object_repository.py). */
module ProfileCodec {
  import opened Wrappers
  import opened Uuid

  type Byte = x: int | 0 <= x < 256
  type Bytes = seq<Byte>

  const ABSENT := "absent"
  const MAX_PHOTO_BYTES := 512 * 1024

  /** `LI_PROFILE_V1` and a zero byte. */
  const MAGIC: Bytes := [76, 73, 95, 80, 82, 79, 70, 73, 76, 69, 95, 86, 49, 0]
  const REVISION_BYTES := 36
  const PHOTO: Byte := 80
  const EMPTY: Byte := 69
  const HEADER_BYTES := 14 + REVISION_BYTES + 1
  const MAX_OBJECT_BYTES := HEADER_BYTES + MAX_PHOTO_BYTES

  /** The boundary check on decoder output: bounded, and between the JPEG markers. */
  predicate Normalized(photo: Bytes) {
    && 4 <= |photo| <= MAX_PHOTO_BYTES
    && photo[..2] == [0xff, 0xd8]
    && photo[|photo| - 2..] == [0xff, 0xd9]
  }

  lemma NormalizedExactly(photo: Bytes)
    ensures
      Normalized(photo) <==>
      && 4 <= |photo| <= 524_288 && photo[0] == 255 && photo[1] == 216
      && photo[|photo| - 2] == 255 && photo[|photo| - 1] == 217
  {
    if |photo| >= 4 {
      assert photo[..2] == [photo[0], photo[1]];
      assert photo[|photo| - 2..] == [photo[|photo| - 2], photo[|photo| - 1]];
    }
  }

  /** A revision with a photo, or the tombstone a removal leaves. */
  datatype Snapshot = Snapshot(revision: string, photo: Option<Bytes>) {
    predicate Valid() {
      ValidRevision(revision) && (photo.Some? ==> Normalized(photo.value))
    }
  }

  predicate IsAscii(text: string) { forall i :: 0 <= i < |text| ==> text[i] as int < 128 }

  function EncodeAscii(text: string): (b: Bytes)
    requires IsAscii(text)
    ensures |b| == |text|
  {
    seq(|text|, i requires 0 <= i < |text| => text[i] as int)
  }

  /** `contents.decode("ascii")`, which refuses every byte above 127. */
  function DecodeAscii(b: Bytes): (r: Option<string>)
    ensures r.Some? ==> |r.value| == |b| && IsAscii(r.value)
  {
    if forall i :: 0 <= i < |b| ==> b[i] < 128
    then Some(seq(|b|, i requires 0 <= i < |b| => b[i] as char))
    else None
  }

  function Encode(s: Snapshot): Bytes
    requires IsAscii(s.revision)
  {
    MAGIC + EncodeAscii(s.revision)
    + (if s.photo.Some? then [PHOTO] + s.photo.value else [EMPTY])
  }

  /** None stands for the repository error. */
  function Decode(contents: Bytes): Option<Snapshot> {
    if !(HEADER_BYTES <= |contents| <= MAX_OBJECT_BYTES) then None
    else if contents[..14] != MAGIC then None
    else
      var revision := DecodeAscii(contents[14..14 + REVISION_BYTES]);
      var marker := contents[14 + REVISION_BYTES];
      var payload := contents[HEADER_BYTES..];
      if revision.None? then None
      else if marker == EMPTY && payload != [] then None
      else if marker != PHOTO && marker != EMPTY then None
      else
        var snapshot := Snapshot(revision.value, if marker == PHOTO then Some(payload) else None);
        if snapshot.Valid() then Some(snapshot) else None
  }

  lemma RevisionIsAscii(s: Snapshot)
    requires s.Valid()
    ensures |s.revision| == REVISION_BYTES && IsAscii(s.revision) && s.revision != ABSENT
  {
    ValidRevisionIsCanonical(s.revision);
    forall i | 0 <= i < 36 ensures s.revision[i] as int < 128 {
      assert if IsHyphenAt(i) then s.revision[i] == '-' else IsLowerHex(s.revision[i]);
    }
  }

  lemma AsciiRoundTrip(text: string)
    requires IsAscii(text)
    ensures DecodeAscii(EncodeAscii(text)) == Some(text)
  {
    var b := EncodeAscii(text);
    assert forall i :: 0 <= i < |b| ==> b[i] as char == text[i];
    assert DecodeAscii(b).value == text;
  }

  /** Every snapshot the service can hold is stored within the size bound and read back. */
  lemma DecodeOfEncode(s: Snapshot)
    requires s.Valid()
    ensures IsAscii(s.revision)
    ensures HEADER_BYTES <= |Encode(s)| <= MAX_OBJECT_BYTES
    ensures Decode(Encode(s)) == Some(s)
  {
    RevisionIsAscii(s);
    AsciiRoundTrip(s.revision);
    var c := Encode(s);
    var tail := if s.photo.Some? then [PHOTO] + s.photo.value else [EMPTY];
    assert c[..14] == MAGIC;
    assert c[14..14 + REVISION_BYTES] == EncodeAscii(s.revision);
    assert c[14 + REVISION_BYTES] == tail[0];
    assert c[HEADER_BYTES..] == tail[1..];
  }

  /** The stored form, byte by byte: the magic text and a zero, the revision, `P` or `E`, the photo. */
  lemma StoredLayout(s: Snapshot)
    requires s.Valid()
    ensures IsAscii(s.revision) && |Encode(s)| == 51 + (if s.photo.Some? then |s.photo.value| else 0)
    ensures Encode(s)[..14] == EncodeAscii("LI_PROFILE_V1") + [0]
    ensures Encode(s)[14..50] == EncodeAscii(s.revision)
    ensures Encode(s)[50] == if s.photo.Some? then 'P' as int else 'E' as int
    ensures Encode(s)[51..] == if s.photo.Some? then s.photo.value else []
  {
    RevisionIsAscii(s);
    var c := Encode(s);
    assert c[..14] == MAGIC == EncodeAscii("LI_PROFILE_V1") + [0];
    assert c[14..50] == EncodeAscii(s.revision);
    assert c[51..] == if s.photo.Some? then s.photo.value else [];
  }

  /** An accepted byte string is the only spelling of its snapshot. */
  lemma EncodeOfDecode(contents: Bytes)
    requires Decode(contents).Some?
    ensures Decode(contents).value.Valid()
    ensures IsAscii(Decode(contents).value.revision)
    ensures Encode(Decode(contents).value) == contents
  {
    var s := Decode(contents).value;
    var text := contents[14..14 + REVISION_BYTES];
    assert EncodeAscii(s.revision) == text;
    var marker := contents[14 + REVISION_BYTES];
    var payload := contents[HEADER_BYTES..];
    Parts(contents);
  }

  lemma Parts(contents: Bytes)
    requires |contents| >= HEADER_BYTES
    ensures contents ==
            contents[..14] + contents[14..14 + REVISION_BYTES]
            + ([contents[14 + REVISION_BYTES]] + contents[HEADER_BYTES..])
  {
    var rest := contents[14..];
    assert contents == contents[..14] + rest;
    assert rest == rest[..REVISION_BYTES] + rest[REVISION_BYTES..];
  }
}
