/**
 * The recording store (proxy/internal/recording/store.go): metadata that must agree with the
 * chunk and event files beside it.
 *
 * The file system is four maps. Whether a call into it fails, how much a failing copy or
 * encoder wrote, and what ffprobe measured, are parameters. A metadata write is atomic.
 */
module RecordingStore {
  import opened Wrappers
  import opened Numbers
  import opened Playlists

  type Bytes = seq<bv8>
  datatype Event = Event(at: int, kind: string)
  datatype StoreError = RecordingNotFound | IOFailed

  /** The chunk files of all recordings, by recording id and file name. */
  type ChunkFiles = map<(string, string), Bytes>

  function FileSize(files: ChunkFiles, id: string, i: nat): nat {
    if (id, SegmentName(i)) in files then |files[(id, SegmentName(i))]| else 0
  }

  function SizeSum(files: ChunkFiles, id: string, n: nat): nat {
    if n == 0 then 0 else SizeSum(files, id, n - 1) + FileSize(files, id, n - 1)
  }

  /** What ffmpeg makes of the listed files. */
  function Concat(files: ChunkFiles, id: string, names: seq<string>): Bytes {
    if names == [] then []
    else
      var last := (id, names[|names| - 1]);
      Concat(files, id, names[..|names| - 1]) + (if last in files then files[last] else [])
  }

  function SegmentNames(n: nat): (names: seq<string>)
    ensures |names| == n && forall i | 0 <= i < n :: names[i] == SegmentName(i)
  {
    if n == 0 then [] else SegmentNames(n - 1) + [SegmentName(n - 1)]
  }

  lemma {:induction false} SameSizesSameSum(files: ChunkFiles, files': ChunkFiles, id: string, n: nat)
    requires forall i: nat | i < n :: FileSize(files, id, i) == FileSize(files', id, i)
    ensures SizeSum(files, id, n) == SizeSum(files', id, n)
  {
    if n > 0 {
      SameSizesSameSum(files, files', id, n - 1);
    }
  }

  lemma ConcatLast(files: ChunkFiles, id: string, names: seq<string>, name: string)
    ensures Concat(files, id, names + [name]) == Concat(files, id, names) + (if (id, name) in files then files[(id, name)] else [])
  {
    var all := names + [name];
    assert all[|all| - 1] == name && all[..|all| - 1] == names;
  }

  /** The video holds the bytes of the counted chunks: as many as the metadata says. */
  lemma {:induction false} VideoSize(files: ChunkFiles, id: string, n: nat)
    ensures |Concat(files, id, SegmentNames(n))| == SizeSum(files, id, n)
  {
    if n > 0 {
      VideoSize(files, id, n - 1);
      ConcatLast(files, id, SegmentNames(n - 1), SegmentName(n - 1));
    }
  }

  type Metadata = map<string, Recording>
  type EventFiles = map<string, seq<Event>>

  function LinesOf(events: EventFiles, id: string): seq<Event> {
    if id in events then events[id] else []
  }

  /** The metadata of a recording agrees with its files. */
  ghost predicate RecordAgrees(rec: Recording, id: string, files: ChunkFiles, lines: nat) {
    && rec.id == id
    && rec.chunkCount == |rec.chunkDurations|
    && (forall i: nat | i < rec.chunkCount :: (id, SegmentName(i)) in files)
    && rec.totalBytes == SizeSum(files, id, rec.chunkCount)
    && rec.eventCount <= lines
  }

  ghost predicate AllAgree(metadata: Metadata, files: ChunkFiles, events: EventFiles) {
    forall id | id in metadata :: RecordAgrees(metadata[id], id, files, |LinesOf(events, id)|)
  }

  /** The uploads of a recording, one after the other. */
  function Flatten(parts: seq<Bytes>): Bytes {
    if parts == [] then [] else Flatten(parts[..|parts| - 1]) + parts[|parts| - 1]
  }

  lemma FlattenOneMore(parts: seq<Bytes>, data: Bytes)
    ensures Flatten(parts + [data]) == Flatten(parts) + data
  {
    assert (parts + [data])[..|parts|] == parts;
  }

  /** The counted files of each recording hold what was uploaded for it, in the order it came. */
  ghost predicate UploadsKept(metadata: Metadata, files: ChunkFiles, uploads: map<string, seq<Bytes>>) {
    forall id | id in metadata :: id in uploads && KeepsAll(files, id, uploads[id]) && |uploads[id]| == metadata[id].chunkCount
  }

  ghost predicate KeepsAll(files: ChunkFiles, id: string, parts: seq<Bytes>) {
    forall i: nat | i < |parts| :: (id, SegmentName(i)) in files && files[(id, SegmentName(i))] == parts[i]
  }

  lemma {:induction false} VideoIsUploads(files: ChunkFiles, id: string, parts: seq<Bytes>)
    requires KeepsAll(files, id, parts)
    ensures Concat(files, id, SegmentNames(|parts|)) == Flatten(parts)
  {
    if parts != [] {
      var n := |parts| - 1;
      VideoIsUploads(files, id, parts[..n]);
      ConcatLast(files, id, SegmentNames(n), SegmentName(n));
      assert (id, SegmentName(n)) in files;
    }
  }

  /** A file that is no counted one changes no recording's uploads. */
  lemma UploadsUntouched(metadata: Metadata, files: ChunkFiles, uploads: map<string, seq<Bytes>>, id: string, data: Bytes)
    requires UploadsKept(metadata, files, uploads) && id in metadata
    ensures UploadsKept(metadata, files[(id, SegmentName(metadata[id].chunkCount)) := data], uploads)
  {
    forall k, i: nat | k in metadata && i < metadata[k].chunkCount
      ensures (k, SegmentName(i)) != (id, SegmentName(metadata[id].chunkCount))
    {
      UncountedIsApart(metadata, id, k, i);
    }
  }

  lemma UploadCounted(metadata: Metadata, files: ChunkFiles, uploads: map<string, seq<Bytes>>, id: string, data: Bytes, rec: Recording)
    requires UploadsKept(metadata, files, uploads) && id in metadata && rec.chunkCount == metadata[id].chunkCount + 1
    requires (id, SegmentName(metadata[id].chunkCount)) in files && files[(id, SegmentName(metadata[id].chunkCount))] == data
    ensures UploadsKept(metadata[id := rec], files, uploads[id := uploads[id] + [data]])
  {
    assert KeepsAll(files, id, uploads[id]);
    assert KeepsAll(files, id, uploads[id] + [data]);
  }

  /** The file of the first uncounted chunk of a recording is no counted file, of it or of another. */
  lemma UncountedIsApart(metadata: Metadata, id: string, k: string, i: nat)
    requires id in metadata && k in metadata && i < metadata[k].chunkCount
    ensures (k, SegmentName(i)) != (id, SegmentName(metadata[id].chunkCount))
  {
    if k == id {
      SegmentNamesDiffer(i, metadata[id].chunkCount);
    }
  }

  /** Writing that file, wholly or in part, keeps everything in agreement. */
  lemma ChunkWriteAgrees(metadata: Metadata, files: ChunkFiles, events: EventFiles, id: string, data: Bytes)
    requires AllAgree(metadata, files, events) && id in metadata
    ensures AllAgree(metadata, files[(id, SegmentName(metadata[id].chunkCount)) := data], events)
  {
    var files' := files[(id, SegmentName(metadata[id].chunkCount)) := data];
    forall k | k in metadata ensures RecordAgrees(metadata[k], k, files', |LinesOf(events, k)|) {
      forall i: nat | i < metadata[k].chunkCount ensures FileSize(files, k, i) == FileSize(files', k, i) {
        UncountedIsApart(metadata, id, k, i);
      }
      SameSizesSameSum(files, files', k, metadata[k].chunkCount);
    }
  }

  /** Counting the chunk once its file is there keeps everything in agreement. */
  lemma ChunkCountAgrees(metadata: Metadata, files: ChunkFiles, events: EventFiles, id: string, probed: real)
    requires AllAgree(metadata, files, events) && id in metadata && (id, SegmentName(metadata[id].chunkCount)) in files
    ensures AllAgree(metadata[id := WithChunk(metadata[id], probed, FileSize(files, id, metadata[id].chunkCount))], files, events)
  {
  }

  lemma EventWriteAgrees(metadata: Metadata, files: ChunkFiles, events: EventFiles, id: string, lines: seq<Event>)
    requires AllAgree(metadata, files, events)
    ensures AllAgree(metadata, files, events[id := LinesOf(events, id) + lines])
  {
    forall k | k in metadata ensures RecordAgrees(metadata[k], k, files, |LinesOf(events[id := LinesOf(events, id) + lines], k)|) {
      assert RecordAgrees(metadata[k], k, files, |LinesOf(events, k)|);
    }
  }

  /** Replacing the record of one recording by one that agrees with the same files. */
  lemma RecordWriteAgrees(metadata: Metadata, files: ChunkFiles, events: EventFiles, id: string, rec: Recording)
    requires AllAgree(metadata, files, events) && RecordAgrees(rec, id, files, |LinesOf(events, id)|)
    ensures AllAgree(metadata[id := rec], files, events)
  {
  }

  /** Agreement is what the playlist needs to grow only at its end when a chunk is counted. */
  lemma StoredPlaylistsGrow(metadata: Metadata, files: ChunkFiles, events: EventFiles, id: string, probed: real, size: nat)
    requires AllAgree(metadata, files, events) && id in metadata
    ensures var rec := metadata[id]; Body(rec, rec.chunkCount) <= Body(WithChunk(rec, probed, size), rec.chunkCount + 1)
  {
    assert RecordAgrees(metadata[id], id, files, |LinesOf(events, id)|);
    AppendOnly(metadata[id], size);
  }

  class Store {
    var metadata: Metadata
    var chunks: ChunkFiles
    var eventLines: EventFiles
    var videos: map<string, Bytes>
    ghost var uploads: map<string, seq<Bytes>>   // what AppendChunk accepted, per recording

    ghost predicate Valid()
      reads this
    {
      AllAgree(metadata, chunks, eventLines) && UploadsKept(metadata, chunks, uploads)
    }

    constructor ()
      ensures Valid() && metadata == map[] && chunks == map[] && eventLines == map[]
    {
      metadata, chunks, eventLines, videos, uploads := map[], map[], map[], map[], map[];
    }

    /** Takes the record createRecording builds: nothing counted yet. */
    method Create(rec: Recording, dirOk: bool, metaOk: bool) returns (r: Result<(), StoreError>)
      requires Valid()
      requires rec.chunkCount == 0 && rec.chunkDurations == [] && rec.totalBytes == 0 && rec.eventCount == 0
      modifies this
      ensures Valid() && chunks == old(chunks) && eventLines == old(eventLines) && videos == old(videos)
      ensures r.Ok? <==> dirOk && metaOk
      ensures metadata == if r.Ok? then old(metadata)[rec.id := rec] else old(metadata)
      ensures uploads == if r.Ok? then old(uploads)[rec.id := []] else old(uploads)
    {
      if !dirOk || !metaOk {
        return Err(IOFailed);
      }
      RecordWriteAgrees(metadata, chunks, eventLines, rec.id, rec);
      metadata := metadata[rec.id := rec];
      uploads := uploads[rec.id := []];
      return Ok(());
    }

    method AppendChunk(id: string, data: Bytes, createOk: bool, copied: nat, probed: real, metaOk: bool)
      returns (r: Result<nat, StoreError>)
      requires Valid() && copied <= |data|   // a copy that fails has written a proper prefix
      modifies this
      ensures Valid() && eventLines == old(eventLines) && videos == old(videos)
      ensures r.Ok? <==> id in old(metadata) && createOk && copied == |data| && metaOk
      ensures r == Err(RecordingNotFound) <==> id !in old(metadata)
      ensures r.Ok? ==> r.value == old(metadata)[id].chunkCount
                        && metadata == old(metadata)[id := WithChunk(old(metadata)[id], probed, |data|)]
      ensures r.Err? ==> metadata == old(metadata)
      ensures uploads == if r.Ok? then old(uploads)[id := old(uploads)[id] + [data]] else old(uploads)
      ensures chunks == if id in old(metadata) && createOk
                        then old(chunks)[(id, SegmentName(old(metadata)[id].chunkCount)) := data[..copied]] else old(chunks)
      // a chunk that was counted is never rewritten, whether or not this call succeeds
      ensures forall k, i: nat | k in old(metadata) && i < old(metadata)[k].chunkCount ::
                (k, SegmentName(i)) in chunks && chunks[(k, SegmentName(i))] == old(chunks)[(k, SegmentName(i))]
      // completed recordings are not refused: a video that held every upload misses this one unless it is empty
      ensures r.Ok? && id in videos && videos[id] == Flatten(old(uploads)[id]) ==> (videos[id] == Flatten(uploads[id]) <==> data == [])
    {
      if id !in metadata {
        return Err(RecordingNotFound);
      }
      var chunkNum := metadata[id].chunkCount;
      if !createOk {
        return Err(IOFailed);
      }
      WriteChunk(id, data[..copied]);
      if copied < |data| {
        return Err(IOFailed);
      }
      assert data[..copied] == data;
      if !metaOk {
        return Err(IOFailed);
      }
      FlattenOneMore(uploads[id], data);
      CountChunk(id, data, probed);
      return Ok(chunkNum);
    }

    /** The chunk file gets what the copy wrote; no counted chunk is touched. */
    method WriteChunk(id: string, data: Bytes)
      requires Valid() && id in metadata
      modifies this`chunks
      ensures Valid() && chunks == old(chunks)[(id, SegmentName(metadata[id].chunkCount)) := data]
      ensures forall k, i: nat | k in metadata && i < metadata[k].chunkCount ::
                (k, SegmentName(i)) in chunks && chunks[(k, SegmentName(i))] == old(chunks)[(k, SegmentName(i))]
    {
      forall k, i: nat | k in metadata && i < metadata[k].chunkCount
        ensures (k, SegmentName(i)) in chunks && (k, SegmentName(i)) != (id, SegmentName(metadata[id].chunkCount))
      {
        UncountedIsApart(metadata, id, k, i);
        assert RecordAgrees(metadata[k], k, chunks, |LinesOf(eventLines, k)|);
      }
      ChunkWriteAgrees(metadata, chunks, eventLines, id, data);
      UploadsUntouched(metadata, chunks, uploads, id, data);
      chunks := chunks[(id, SegmentName(metadata[id].chunkCount)) := data];
    }

    /** The metadata write of AppendChunk, for a chunk that is on disk. */
    method CountChunk(id: string, data: Bytes, probed: real)
      requires Valid() && id in metadata
      requires (id, SegmentName(metadata[id].chunkCount)) in chunks && chunks[(id, SegmentName(metadata[id].chunkCount))] == data
      modifies this`metadata, this`uploads
      ensures Valid() && metadata == old(metadata)[id := WithChunk(old(metadata)[id], probed, |data|)]
      ensures uploads == old(uploads)[id := old(uploads)[id] + [data]]
    {
      ChunkCountAgrees(metadata, chunks, eventLines, id, probed);
      UploadCounted(metadata, chunks, uploads, id, data, WithChunk(metadata[id], probed, |data|));
      metadata := metadata[id := WithChunk(metadata[id], probed, |data|)];
      uploads := uploads[id := uploads[id] + [data]];
    }

    method AppendEvents(id: string, events: seq<Event>, openOk: bool, encoded: nat, metaOk: bool)
      returns (r: Result<(), StoreError>)
      requires Valid() && encoded <= |events|   // an encoder that fails has written a proper prefix
      modifies this
      ensures Valid() && chunks == old(chunks) && videos == old(videos) && uploads == old(uploads)
      ensures r.Ok? <==> id in old(metadata) && openOk && encoded == |events| && metaOk
      ensures r == Err(RecordingNotFound) <==> id !in old(metadata)
      ensures eventLines == if id in old(metadata) && openOk
                            then old(eventLines)[id := LinesOf(old(eventLines), id) + events[..encoded]] else old(eventLines)
      ensures metadata == if r.Ok? then old(metadata)[id := old(metadata)[id].(eventCount := old(metadata)[id].eventCount + |events|)]
                          else old(metadata)
      // the surplus of lines over the count grows only when a call fails
      ensures r.Ok? ==> |LinesOf(eventLines, id)| - metadata[id].eventCount
                        == |LinesOf(old(eventLines), id)| - old(metadata)[id].eventCount
    {
      if id !in metadata {
        return Err(RecordingNotFound);
      }
      var rec := metadata[id];
      if !openOk {
        return Err(IOFailed);
      }
      assert RecordAgrees(rec, id, chunks, |LinesOf(eventLines, id)|);
      EventWriteAgrees(metadata, chunks, eventLines, id, events[..encoded]);
      eventLines := eventLines[id := LinesOf(eventLines, id) + events[..encoded]];
      if encoded < |events| {
        return Err(IOFailed);
      }
      if !metaOk {
        return Err(IOFailed);
      }
      RecordWriteAgrees(metadata, chunks, eventLines, id, rec.(eventCount := rec.eventCount + |events|));
      metadata := metadata[id := rec.(eventCount := rec.eventCount + |events|)];
      return Ok(());
    }

    /** The list handed to ffmpeg, built chunk by chunk. */
    method ConcatList(count: nat) returns (names: seq<string>)
      ensures names == SegmentNames(count)
    {
      names := [];
      for i := 0 to count
        invariant names == SegmentNames(i)
      {
        names := names + [SegmentName(i)];
      }
    }

    lemma VideoHoldsUploads(id: string)
      requires Valid() && id in metadata
      ensures Concat(chunks, id, SegmentNames(metadata[id].chunkCount)) == Flatten(uploads[id])
      ensures |Flatten(uploads[id])| == metadata[id].totalBytes
    {
      assert RecordAgrees(metadata[id], id, chunks, |LinesOf(eventLines, id)|);
      VideoIsUploads(chunks, id, uploads[id]);
      VideoSize(chunks, id, metadata[id].chunkCount);
    }

    /** `left` is the file a failing ffmpeg leaves behind, if it has written any. */
    method Finalize(id: string, now: int, listOk: bool, ffmpegOk: bool, left: Option<Bytes>, metaOk: bool) returns (r: Result<(), StoreError>)
      requires Valid()
      modifies this
      ensures Valid() && chunks == old(chunks) && eventLines == old(eventLines) && uploads == old(uploads)
      ensures r == Err(RecordingNotFound) <==> id !in old(metadata)
      ensures r.Ok? <==> id in old(metadata) && metaOk && (old(metadata)[id].chunkCount == 0 || (listOk && ffmpegOk))
      ensures metadata == if r.Ok? then old(metadata)[id := Finished(old(metadata)[id], now)] else old(metadata)
      // the video is every accepted upload of the recording, in upload order, and nothing else
      ensures r.Ok? && old(metadata)[id].chunkCount > 0 ==>
                videos == old(videos)[id := Flatten(uploads[id])] && |videos[id]| == metadata[id].totalBytes
      ensures id !in old(metadata) || old(metadata)[id].chunkCount == 0 || !listOk ==> videos == old(videos)
      // also when the record cannot be written after that
      ensures id in old(metadata) && old(metadata)[id].chunkCount > 0 && listOk && ffmpegOk ==> videos == old(videos)[id := Flatten(uploads[id])]
      // a failing ffmpeg leaves what it wrote, and the record unfinished
      ensures id in old(metadata) && old(metadata)[id].chunkCount > 0 && listOk && !ffmpegOk ==>
                videos == if left.Some? then old(videos)[id := left.value] else old(videos)
    {
      if id !in metadata {
        return Err(RecordingNotFound);
      }
      var ok := WriteVideo(id, listOk, ffmpegOk, left);
      if !ok || !metaOk {
        return Err(IOFailed);
      }
      MarkCompleted(id, now);
      return Ok(());
    }

    /** The part of Finalize that has ffmpeg join the counted chunks, if there are any. */
    method WriteVideo(id: string, listOk: bool, ffmpegOk: bool, left: Option<Bytes>) returns (ok: bool)
      requires Valid() && id in metadata
      modifies this`videos
      ensures Valid() && (ok <==> metadata[id].chunkCount == 0 || (listOk && ffmpegOk))
      ensures ok && metadata[id].chunkCount > 0 ==>
                videos == old(videos)[id := Flatten(uploads[id])] && |videos[id]| == metadata[id].totalBytes
      ensures metadata[id].chunkCount == 0 || !listOk ==> videos == old(videos)
      ensures !ok && listOk ==> videos == if left.Some? then old(videos)[id := left.value] else old(videos)
    {
      if metadata[id].chunkCount == 0 {
        return true;
      }
      if !listOk {
        return false;
      }
      var names := ConcatList(metadata[id].chunkCount);
      if !ffmpegOk {
        if left.Some? {
          videos := videos[id := left.value];
        }
        return false;
      }
      VideoHoldsUploads(id);
      videos := videos[id := Concat(chunks, id, names)];
      return true;
    }

    method MarkCompleted(id: string, now: int)
      requires Valid() && id in metadata
      modifies this`metadata
      ensures Valid() && metadata == old(metadata)[id := Finished(old(metadata)[id], now)]
    {
      assert RecordAgrees(metadata[id], id, chunks, |LinesOf(eventLines, id)|);
      RecordWriteAgrees(metadata, chunks, eventLines, id, Finished(metadata[id], now));
      metadata := metadata[id := Finished(metadata[id], now)];
    }

    method GeneratePlaylist(id: string) returns (r: Result<string, StoreError>)
      ensures r == if id in metadata then Ok(Playlist(metadata[id])) else Err(RecordingNotFound)
    {
      if id !in metadata {
        return Err(RecordingNotFound);
      }
      var text := Generate(metadata[id]);
      return Ok(text);
    }

    /**
     * hlsSegment: the file a requested segment name is served from. A name of the playlist is
     * served from the file of its chunk; any other name the number of which can be read, such
     * as 1.ts or +1, from the file of that chunk as well, and nothing else is served.
     */
    method ServeSegment(id: string, segment: string) returns (content: Option<Bytes>)
      ensures forall i: nat | i <= MAX_INT && segment == SegmentName(i) ::
                content == if (id, SegmentName(i)) in chunks then Some(chunks[(id, SegmentName(i))]) else None
      ensures forall digits | digits != "" && AllDigits(digits) && Value(digits) <= MAX_INT && segment == digits + ".ts" ::
                content == if (id, SegmentName(Value(digits))) in chunks then Some(chunks[(id, SegmentName(Value(digits)))]) else None
      ensures forall i: nat | i <= MAX_INT && Atoi(TrimSuffix(segment, ".ts")) == Some(i) && (id, SegmentName(i)) in chunks ::
                content == Some(chunks[(id, SegmentName(i))])
      ensures content.Some? ==> exists i: nat | i <= MAX_INT && (id, SegmentName(i)) in chunks ::
                                  content.value == chunks[(id, SegmentName(i))] && Atoi(TrimSuffix(segment, ".ts")) == Some(i)
    {
      var index := ServedIndex(segment);
      content := None;
      if index.Some? && index.value >= 0 && (id, SegmentName(index.value)) in chunks {
        content := Some(chunks[(id, SegmentName(index.value))]);
      }
      forall i: nat | i <= MAX_INT && segment == SegmentName(i) ensures index == Some(i) {
        SegmentNameReads(i);
      }
      forall digits | digits != "" && AllDigits(digits) && Value(digits) <= MAX_INT && segment == digits + ".ts"
        ensures index == Some(Value(digits))
      {
        DigitsRead(digits);
      }
    }
  }
}
