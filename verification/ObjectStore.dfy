/**
 The provider adapter and the repository in the form the code has (gcs_object_store.py,
 object_repository.py): a blob whose `generation` a reload sets, a bounded download buffer, and
 compare-and-swap over them. What the provider answers to each call is an argument.
 `ProfileProtocol` interleaves these same calls between clients.
 */
module ObjectStore {
  import opened Wrappers
  import opened ProfileCodec
  import Protocol = ProfileProtocol

  datatype ReloadAnswer = Found(generation: int) | NotFound | ReloadUnavailable

  datatype Answer = Done | Missing | PreconditionFailed | Unavailable

  /** The provider's answers to one read: reload, namespace check, download in chunks. */
  datatype ReadAnswers = ReadAnswers(reload: ReloadAnswer, verified: bool, chunks: seq<Bytes>, download: Answer)

  /** Err stands for `ObjectStoreError`; a successful read is an object or its verified absence. */
  type ReadResult = Result<Option<Protocol.Stored>, ()>

  function Concat(chunks: seq<Bytes>): Bytes {
    if chunks == [] then [] else chunks[0] + Concat(chunks[1..])
  }

  lemma {:induction false} ConcatSnoc(chunks: seq<Bytes>, k: nat)
    requires k < |chunks|
    ensures Concat(chunks[..k + 1]) == Concat(chunks[..k]) + chunks[k]
    decreases k
  {
    if k == 0 {
      assert chunks[..1] == [chunks[0]];
      assert Concat(chunks[..1][1..]) == [];
    } else {
      ConcatSnoc(chunks[1..], k - 1);
      assert chunks[1..][..k] == chunks[..k + 1][1..];
      assert chunks[1..][..k - 1] == chunks[..k][1..];
    }
  }

  lemma {:induction false} PrefixIsShorter(chunks: seq<Bytes>, k: nat)
    requires k <= |chunks|
    ensures |Concat(chunks[..k])| <= |Concat(chunks)|
    decreases |chunks| - k
  {
    if k == |chunks| {
      assert chunks[..k] == chunks;
    } else {
      ConcatSnoc(chunks, k);
      PrefixIsShorter(chunks, k + 1);
    }
  }

  /** Absence only when the provider said not-found and the namespace was verified; an object only
      when every byte of the pinned generation arrived within the bound; otherwise an error. */
  function ReadOf(answers: ReadAnswers): ReadResult {
    var contents := Concat(answers.chunks);
    if answers.reload.NotFound? && answers.verified then Ok(None)
    else if answers.reload.Found? && answers.reload.generation >= 1
         && answers.download.Done? && 1 <= |contents| <= MAX_OBJECT_BYTES
    then Ok(Some(Protocol.Stored(answers.reload.generation, contents)))
    else Err(())
  }

  class BoundedBuffer {
    var data: Bytes

    constructor ()
      ensures data == []
    {
      data := [];
    }

    /** Refuses, and keeps what it has, rather than hold more than one object can be. */
    method Write(chunk: Bytes) returns (accepted: bool)
      modifies this
      ensures accepted <==> |old(data)| + |chunk| <= MAX_OBJECT_BYTES
      ensures data == if accepted then old(data) + chunk else old(data)
    {
      accepted := |data| + |chunk| <= MAX_OBJECT_BYTES;
      if accepted {
        data := data + chunk;
      }
    }
  }

  class GoogleCloudObjectStore {
    var generation: int

    method Read(answers: ReadAnswers) returns (r: ReadResult)
      modifies this
      ensures r == ReadOf(answers)
      ensures r == Ok(None) <==> answers.reload.NotFound? && answers.verified
      ensures r.Ok? && r.value.Some? <==>
        && answers.reload.Found? && answers.reload.generation >= 1
        && answers.download.Done? && 1 <= |Concat(answers.chunks)| <= MAX_OBJECT_BYTES
      ensures r.Ok? && r.value.Some? ==>
        r.value.value == Protocol.Stored(answers.reload.generation, Concat(answers.chunks))
      ensures r.Ok? && r.value.Some? ==> generation == r.value.value.generation
    {
      match answers.reload
      case NotFound => return if answers.verified then Ok(None) else Err(());
      case ReloadUnavailable => return Err(());
      case Found(reported) =>
        generation := reported;
        if generation < 1 { return Err(()); }
        var output := new BoundedBuffer();
        var k := 0;
        while k < |answers.chunks|
          invariant 0 <= k <= |answers.chunks|
          invariant output.data == Concat(answers.chunks[..k]) && |output.data| <= MAX_OBJECT_BYTES
          invariant generation == answers.reload.generation
        {
          var accepted := output.Write(answers.chunks[k]);
          ConcatSnoc(answers.chunks, k);
          PrefixIsShorter(answers.chunks, k + 1);
          if !accepted { return Err(()); }
          k := k + 1;
        }
        assert answers.chunks[..k] == answers.chunks;
        if !answers.download.Done? { return Err(()); }
        if |output.data| < 1 { return Err(()); }
        return Ok(Some(Protocol.Stored(generation, output.data)));
    }

    /** True means stored, False that the condition lost a race; anything else is uncertain. */
    method Write(contents: Bytes, ifGeneration: int, upload: Answer) returns (r: Result<bool, ()>)
      ensures r.Ok? <==>
        Protocol.WriteAccepted(contents, ifGeneration) && (upload.Done? || upload.PreconditionFailed?)
      ensures r.Ok? ==> (r.value <==> upload.Done?)
    {
      if !(1 <= |contents| <= MAX_OBJECT_BYTES) || ifGeneration < 0 { return Err(()); }
      match upload
      case Done => return Ok(true);
      case PreconditionFailed => return Ok(false);
      case _ => return Err(());
    }
  }

  /** A conditional write as the provider receives it. */
  datatype Issued = Issued(contents: Bytes, ifGeneration: int)

  class ObjectRepository {
    const store: GoogleCloudObjectStore

    constructor (store: GoogleCloudObjectStore)
      ensures this.store == store
    {
      this.store := store;
    }

    /**
     One pass of compare-and-swap. It issues a write exactly when the object it read decodes to
     the expected revision, conditional on that object's generation, and it does so exactly when
     a client of the protocol would send one; every other end is the protocol's as well.
     */
    method CompareAndSwap(expected: string, replacement: Snapshot, answers: ReadAnswers, upload: Answer)
      returns (r: Result<bool, ()>, issued: Option<Issued>)
      requires replacement.Valid()
      modifies store
      ensures
        var read := ReadOf(answers);
        && (issued.Some? <==> read.Ok? && Protocol.RevisionOf(read.value) == Some(expected))
        && (issued.Some? ==>
              && Decode(issued.value.contents) == Some(replacement)
              && issued.value.ifGeneration == (if read.value.Some? then read.value.value.generation else 0))
        && (read.Err? ==> r == Err(()))
      ensures r.Ok? && r.value ==> issued.Some? && upload.Done?
      ensures issued.Some? && upload.PreconditionFailed? ==> r == Ok(false)
      ensures ReadOf(answers).Ok? ==>
        var client := Protocol.Client(Protocol.Replace, expected, None, Protocol.Idle);
        var phase := Protocol.AfterRead(client, Protocol.Swap(replacement), ReadOf(answers).value, "");
        && (phase.Sent? <==> issued.Some?)
        && (phase.Done? && phase.outcome.Refused? ==> r == Ok(false))
        && (phase.Done? && phase.outcome.Unavailable? ==> r == Err(()))
    {
      issued := None;
      DecodeOfEncode(replacement);
      var stored :- store.Read(answers);
      var generation, actual := 0, ABSENT;
      if stored.Some? {
        var current := Decode(stored.value.contents);
        if current.None? { return Err(()), None; }
        generation, actual := stored.value.generation, current.value.revision;
      }
      if actual != expected { return Ok(false), None; }
      issued := Some(Issued(Encode(replacement), generation));
      r := store.Write(Encode(replacement), generation, upload);
    }
  }
}
