/**
 * The Android model downloader: which active network counts as available,
 * the error raised without one, the cache rule, and the copy loop that
 * streams a model file into the cache through a fixed-size buffer.
 *
 * The connectivity manager, the file system and the HTTP connection are
 * the environment: the model is given the active network, the cache
 * directory's files and the sequence of chunks each read of the response
 * stream returns.
 */
module AndroidDownloader {
  import opened Bridge

  /** The size of the copy buffer, `ByteArray(16384)`. */
  const BufferSize: nat := 16384

  /** The transports of an active network's capabilities (API 23 and later). */
  datatype NetworkCaps = NetworkCaps(wifi: bool, ethernet: bool, cellular: bool)

  /** The type of the active network info (before API 23). */
  datatype LegacyType = TypeWifi | TypeEthernet | TypeMobile | TypeOther

  /**
   * What the connectivity manager reports: on newer systems the
   * capabilities of the active network (absent when there is no active
   * network or no capabilities), on older ones the type of the active
   * network info (absent when there is none).
   */
  datatype Connectivity =
    | Capabilities(caps: Option<NetworkCaps>)
    | LegacyInfo(networkType: Option<LegacyType>)

  /**
   * `isNetworkAvailable`: WiFi or Ethernet always count, a cellular-only
   * network counts exactly when cellular downloads are allowed, and no
   * active network never does.
   */
  function NetworkAvailable(c: Connectivity, allowCellular: bool): (r: bool)
    ensures c.Capabilities? && c.caps.Some? ==>
              (r <==> c.caps.value.wifi || c.caps.value.ethernet || (c.caps.value.cellular && allowCellular))
    ensures c.LegacyInfo? && c.networkType.Some? ==>
              (r <==> c.networkType.value in {TypeWifi, TypeEthernet} || (c.networkType.value == TypeMobile && allowCellular))
    ensures (c.Capabilities? && c.caps.None?) || (c.LegacyInfo? && c.networkType.None?) ==> !r
  {
    match c
    case Capabilities(caps) =>
      if caps.None? then false
      else if caps.value.wifi then true
      else if caps.value.ethernet then true
      else if caps.value.cellular then allowCellular
      else false
    case LegacyInfo(t) =>
      if t.None? then false
      else match t.value
        case TypeWifi => true
        case TypeEthernet => true
        case TypeMobile => allowCellular
        case TypeOther => false
  }

  /** Allowing cellular never makes a network unavailable, and only ever adds cellular networks. */
  lemma AllowCellularOnlyAdds(c: Connectivity)
    ensures NetworkAvailable(c, false) ==> NetworkAvailable(c, true)
    ensures NetworkAvailable(c, true) && !NetworkAvailable(c, false) ==>
              (c.Capabilities? && c.caps.value.cellular) || (c.LegacyInfo? && c.networkType.value == TypeMobile)
  {
  }

  const NoNetworkMessage: string := "Downloading Spokestack model files requires a network connection."
  const CellularHint: string := " If you'd like to enable cellular downloads, set allowCellular to true in your Spokestack config."

  /** The message of the `NetworkErrorException`: the hint about cellular downloads only when they are not allowed. */
  function NoNetworkError(allowCellular: bool): (m: string)
    ensures |NoNetworkMessage| <= |m| && m[..|NoNetworkMessage|] == NoNetworkMessage
    ensures allowCellular ==> m == NoNetworkMessage
    ensures !allowCellular ==> m == NoNetworkMessage + CellularHint
  {
    if allowCellular then NoNetworkMessage else NoNetworkMessage + CellularHint
  }

  /** A file in the cache directory: whether it can be read, and its bytes. */
  datatype CacheFile = CacheFile(canRead: bool, content: seq<bv8>)

  /** `File(context.cacheDir, filename)`: the cache directory is taken to be a canonical path already. */
  function CachePath(cacheDir: string, filename: string): string
  {
    cacheDir + "/" + filename
  }

  /** The cache rule: an existing, readable, non-empty file is reused unless models are refreshed. */
  predicate CacheHit(files: map<string, CacheFile>, path: string, refreshModels: bool)
  {
    !refreshModels && path in files && files[path].canRead && |files[path].content| > 0
  }

  /** The first index whose read returns nothing (the end of the stream), or the number of reads. */
  function FirstEmpty(chunks: seq<seq<bv8>>): (k: nat)
    ensures k <= |chunks|
    ensures forall i :: 0 <= i < k ==> chunks[i] != []
    ensures k < |chunks| ==> chunks[k] == []
  {
    if chunks == [] || chunks[0] == [] then 0 else 1 + FirstEmpty(chunks[1..])
  }

  /** The bytes of all the chunks, in order. */
  function Concat(chunks: seq<seq<bv8>>): seq<bv8>
  {
    if chunks == [] then [] else chunks[0] + Concat(chunks[1..])
  }

  /** What the copy loop writes: the chunks in order, up to the first read that returns nothing. */
  function Delivered(chunks: seq<seq<bv8>>): seq<bv8>
  {
    if chunks == [] || chunks[0] == [] then [] else chunks[0] + Delivered(chunks[1..])
  }

  /** The file is exactly the concatenation of the chunks read before the end of the stream. */
  lemma {:induction false} DeliveredIsConcatBeforeEnd(chunks: seq<seq<bv8>>)
    ensures Delivered(chunks) == Concat(chunks[..FirstEmpty(chunks)])
  {
    if chunks == [] || chunks[0] == [] {
    } else {
      DeliveredIsConcatBeforeEnd(chunks[1..]);
      assert chunks[..FirstEmpty(chunks)][1..] == chunks[1..][..FirstEmpty(chunks[1..])];
    }
  }

  /** Chunks after the end of the stream are never written. */
  lemma {:induction false} DeliveredIgnoresAfterEnd(chunks: seq<seq<bv8>>, rest: seq<seq<bv8>>)
    requires FirstEmpty(chunks) < |chunks|
    ensures Delivered(chunks + rest) == Delivered(chunks)
  {
    if chunks[0] == [] {
    } else {
      assert (chunks + rest)[1..] == chunks[1..] + rest;
      DeliveredIgnoresAfterEnd(chunks[1..], rest);
    }
  }

  /** `stream.read(buf)`: copies the next chunk into the front of the buffer; -1 at the end of the stream. */
  method Read(buf: array<bv8>, chunk: seq<bv8>) returns (read: int)
    requires |chunk| <= buf.Length
    modifies buf
    ensures chunk == [] ==> read == -1
    ensures chunk != [] ==> read == |chunk| && buf[..read] == chunk
  {
    if chunk == [] {
      return -1;
    }
    var j := 0;
    while j < |chunk|
      invariant 0 <= j <= |chunk|
      invariant buf[..j] == chunk[..j]
    {
      buf[j] := chunk[j];
      assert buf[..j + 1] == buf[..j] + [buf[j]];
      assert chunk[..j + 1] == chunk[..j] + [chunk[j]];
      j := j + 1;
    }
    assert chunk[..j] == chunk;
    read := |chunk|;
  }

  /**
   * The copy loop: read into the buffer, stop at the first read of at
   * most zero bytes, and otherwise write the bytes read. Each read returns
   * at most a buffer's worth.
   */
  method CopyStream(chunks: seq<seq<bv8>>) returns (out: seq<bv8>)
    requires forall i :: 0 <= i < |chunks| ==> |chunks[i]| <= BufferSize
    ensures out == Delivered(chunks)
  {
    var buf := new bv8[BufferSize];
    out := [];
    var i := 0;
    while i < |chunks|
      invariant 0 <= i <= |chunks|
      invariant Delivered(chunks) == out + Delivered(chunks[i..])
    {
      assert chunks[i..][1..] == chunks[i + 1..];
      var read := Read(buf, chunks[i]);
      if read <= 0 {
        break;
      }
      out := out + buf[..read];
      i := i + 1;
    }
  }

  /**
   * A read that throws after some bytes arrived leaves a non-empty file
   * behind, which the next call without `refreshModels` returns as cached.
   */
  lemma {:induction false} PartialFileIsCacheHit(files: map<string, CacheFile>, path: string, chunks: seq<seq<bv8>>)
    requires FirstEmpty(chunks) > 0
    ensures |Delivered(chunks)| >= |chunks[0]| > 0
    ensures CacheHit(files[path := CacheFile(true, Delivered(chunks))], path, false)
  {
    assert chunks[0] != [];
    assert Delivered(chunks) == chunks[0] + Delivered(chunks[1..]);
  }

  /**
   * What the connection gives: the reads of the response stream; the
   * exception opening it throws; or reads that end in an exception from
   * the read after `chunks`.
   */
  datatype Fetch =
    | Connected(chunks: seq<seq<bv8>>)
    | ConnectFailed(message: string)
    | ReadFailed(chunks: seq<seq<bv8>>, message: string)

  /** A read failure only matters when the stream has not ended before it. */
  predicate ReadThrows(fetch: Fetch)
  {
    fetch.ReadFailed? && FirstEmpty(fetch.chunks) == |fetch.chunks|
  }

  /** The exceptions `downloadModel` raises. */
  datatype DownloadException = NetworkErrorException(message: string) | IOException(message: string)

  /** The downloader, with the cache directory's files as its state. */
  class Downloader {
    const allowCellular: bool
    const refreshModels: bool
    const cacheDir: string
    /** The files of the cache directory, by path. */
    var files: map<string, CacheFile>

    constructor(allowCellular: bool, refreshModels: bool, cacheDir: string, files: map<string, CacheFile>)
      ensures this.allowCellular == allowCellular && this.refreshModels == refreshModels
      ensures this.cacheDir == cacheDir && this.files == files
    {
      this.allowCellular := allowCellular;
      this.refreshModels := refreshModels;
      this.cacheDir := cacheDir;
      this.files := files;
    }

    /**
     * `downloadModel`: no available network raises before the cache is
     * looked at; a cache hit returns the cached file's path without a
     * request; a connection that cannot be opened raises before the file
     * is touched; otherwise the file is truncated and the response is
     * streamed into it, and its path is returned, unless a read throws
     * first, which leaves the bytes already written in the file.
     */
    method DownloadModel(filename: string, c: Connectivity, fetch: Fetch) returns (r: Result<string, DownloadException>)
      requires !fetch.ConnectFailed? ==> forall i :: 0 <= i < |fetch.chunks| ==> |fetch.chunks[i]| <= BufferSize
      modifies this
      ensures var path := CachePath(cacheDir, filename);
              (!NetworkAvailable(c, allowCellular) ==>
                 r == Failure(NetworkErrorException(NoNetworkError(allowCellular))) && files == old(files)) &&
              (NetworkAvailable(c, allowCellular) && CacheHit(old(files), path, refreshModels) ==>
                 r == Success(path) && files == old(files)) &&
              (NetworkAvailable(c, allowCellular) && !CacheHit(old(files), path, refreshModels) && fetch.ConnectFailed? ==>
                 r == Failure(IOException(fetch.message)) && files == old(files)) &&
              (NetworkAvailable(c, allowCellular) && !CacheHit(old(files), path, refreshModels) && !fetch.ConnectFailed? ==>
                 files == old(files)[path := CacheFile(true, Delivered(fetch.chunks))] &&
                 (ReadThrows(fetch) ==> r == Failure(IOException(fetch.message))) &&
                 (!ReadThrows(fetch) ==> r == Success(path)))
      ensures r.Success? ==> r.value == CachePath(cacheDir, filename)
    {
      if !NetworkAvailable(c, allowCellular) {
        return Failure(NetworkErrorException(NoNetworkError(allowCellular)));
      }
      var path := CachePath(cacheDir, filename);
      if CacheHit(files, path, refreshModels) {
        return Success(path);
      }
      if fetch.ConnectFailed? {
        return Failure(IOException(fetch.message));
      }
      var content := CopyStream(fetch.chunks);
      files := files[path := CacheFile(true, content)];
      if ReadThrows(fetch) {
        return Failure(IOException(fetch.message));
      }
      r := Success(path);
    }
  }
}
